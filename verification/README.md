# IPACM, modelled and proved in Dafny

IPACM is a daemon that keeps software tables in agreement with rules installed in packet
hardware, driven by an event queue.  This project models its stateful core and proves what the
tables promise: which rules are installed in every reachable state, what each event keeps, and
exactly when a promise fails.

Each part is written twice.  The *state functions* (`LanToLan.Step`, `NatApp.Step`, ...) say what
one event does to a state value, branch by branch.  The *objects* (`LanToLanObjects`,
`NatObjects`, `ListenerObjects`, ...) are classes with the source's fields, arrays, linked nodes
and loops; each method is proved to have exactly the effect of the state function of the same
name.  The theorems about runs are lemmas over the state functions, so they hold of the objects.

What the state functions do is stated a second time, without them: `LanToLanEffects`,
`LanToLanPower`, `LanToLanRefusals`, `NatEffects` and `ConntrackMessages` say of the tables before and after an
operation which links, filter slots, cache slots and rules change and how, and which do not.

| files | what they cover |
|---|---|
| `Driver`, `LanRules`, `LanToLan*` | the LAN-to-LAN offload graph: client table, peer lists, link lists, per-interface rule slots |
| `Connections` | where connection events come from, the connection cache, the loop through the two event queues |
| `NatApp`, `NatMirror`, `NatRuns`, `NatEffects`, `NatObjects` | the NAT cache against the hardware NAT table |
| `Conntrack`, `ConntrackMessages`, `ConntrackObjects` | conntrack messages and WAN events in front of the NAT cache |
| `MessageQueue`, `MessagePump` | the two linked queues and the mutex/condition-variable protocol |
| `Listeners`, `Interfaces` | the registration lists, dispatch, and interface instances |
| `ResourceManager` | resource-manager dependencies |
| `EthClients` | the Ethernet client array |

## How the hardware and the outside are modelled

The driver is a script of replies, one per call, that the state carries along; a lemma over every
script is a lemma over every behaviour of the hardware.  Counters of failed calls (`faults`,
`badAdds`, `badDels`, `refused`) are history only: no branch reads them, and theorems
that need successful calls say so through them.  Handles of new rules are fresh.

A `client_info` pointer is modelled by the key of the entry it points to.  Under the invariants no
stored pointer outlives its entry, so both readings agree; where the source would follow a
pointer to an erased entry the model sets `wild`, and the invariants show that it never does.  In
the dispatcher the same name marks a walk that goes on to a freed node.

Where the code does less than a reader would expect, the model follows the code.  A lemma gives
the exact condition, in terms of what is known before the call, and another one a run from the
initial state that fails:

| what happens | exact condition | failing run |
|---|---|---|
| `check_potential_link` looks only at the second of its two installs, so a link can be one-sided | `LinkBothSymmetricIff`, `CrossSymmetricIff` | `AsymmetricRun` |
| a failed delete while a client disconnects leaves a pointer to it behind | `DisconnectClearsIff` | `DanglingRun` |
| power recovery links a client again to peers it is still linked to | `RecoverDoubles` | `DoubledRun` |
| two linked clients asleep have their filter rules deleted from either end, and the slot counters go below zero | `BothAsleepIff` | `BothAsleepRun` |
| a disconnect or a new MAC takes the last peer of an inactive client, which then stays, idle | `NoIdleKeptIff` | `StrandedRun` |
| a connection from a client to itself breaks the peer lists | `PeerInvKeptIff` | `SelfRun` |
| a cached connection is posted without the category test a fresh one gets | `CacheSkipsCategory` | `SameCategoryRun` |
| `DeleteEntry` with the all-zero tuple counts a free slot down | `DeleteEntryInvIff` | `ZeroDeleteRun` |
| waking a client while there is no NAT table clears its cached connections | `WakeKeepsIff` | `WakeLosesRun` |
| a returning NAT table puts back the rules of sleeping clients too | `AddTableQuietIff` | `QuietLostRun` |
| a WAN that goes down under another address leaves its table behind | `InStepIff` | `OtherAddressRun` |
| a closed connection can stay among the temp entries, after a dummy flush that is not accepted | `CloseForgets` | `DummyFlushRun` |
| a failed signal leaves an event queued with the consumer asleep | `NoLostWakeup` | `FailedSignalSleeps` |
| deleting oneself from a callback is safe only at one's last registration, which WLAN instances, station-mode WAN instances and a category change of an ECM WAN violate | `DeleteSelfSafeIff` | `WlanDeleteRun` |
| a changed bypass flag leaves a stale dependency | `AddExactIff` | `FlagRun` |
| the Q6 reference count works only up to two | `CountedIff` | `ThreeRoutesRun` |

## Model

| member | source | states |
|---|---|---|
| LanToLanPeers.ClearKeeps | ipacm/src/IPACM_LanToLan.cpp:618-652 | clear_peer_list never takes its error path and drops exactly the client's own pairs, on both sides |
| LanToLanPeers.AddKeeps | ipacm/src/IPACM_LanToLan.cpp:787-835 | add_connection counts one pair up by one on both sides, changes no other pair, and reports a new entry exactly when the pair was unconnected |
| LanToLanPeers.RemoveKeeps | ipacm/src/IPACM_LanToLan.cpp:929-979 | remove_connection counts one pair down on both sides, drops it at zero, and reports exactly that |
| LanToLanPeers.PeerPointersLive | ipacm/src/IPACM_LanToLan.cpp:605-652 | every stored peer pointer names a table entry other than its owner, with the same positive count on both sides |
| LanToLanPeers.StepFollows | ipacm/src/IPACM_LanToLan.cpp:94-155 | after any of the seven events, whatever the hardware answers, the two-sided peer lists are symmetric, duplicate-free and positive, and each pair's count is the one the event calls for |
| LanToLanPeers.PeerInvKeptIff | ipacm/src/IPACM_LanToLan.cpp:714-835 | the peer lists stay well formed under an event if and only if it does not connect a known client to itself |
| LanToLanPeers.RunRefines | ipacm/src/IPACM_LanToLan.cpp:618-979 | over every run of all events, power save included and with any hardware, the peer lists refine one map from unordered pairs to positive counts |
| LanToLanLinks.TurnOffKeeps | ipacm/src/IPACM_LanToLan.cpp:465-521 | turnoff_offload_links without a failed delete removes every link of the client on both sides, counts the pairs down and keeps all other links |
| LanToLanLinks.EraseLinksKeeps | ipacm/src/IPACM_LanToLan.cpp:981-1030 | erase_offload_link drops one link on each side when the two are linked, and nothing otherwise |
| LanToLanLinks.CheckPotentialExact | ipacm/src/IPACM_LanToLan.cpp:276-316 | without a failed call, exactly the first active peers of the list, as many as there are pairs left, get one link each, on both sides |
| LanToLanLinks.CheckPotentialKeeps | ipacm/src/IPACM_LanToLan.cpp:276-316 | so it adds at most one link per active peer with a positive count, to no one else, and keeps the graph symmetric |
| LanToLanGraph.LinkPointersLive | ipacm/src/IPACM_LanToLan.cpp:448-461 | every stored link pointer names a table entry that lists the owner equally often |
| LanToLanGraph.StepInv | ipacm/src/IPACM_LanToLan.cpp:94-155 | any event without a failed rule call keeps the offload graph: symmetric link lists between peers, counted by num_offload_pair, at most three pairs |
| LanToLanGraph.RunInv | ipacm/src/IPACM_LanToLan.cpp:157-554 | the same over every run; with power save the links form a multigraph, without it a simple graph over active clients |
| LanToLanEffects.NewConnLinks | ipacm/src/IPACM_LanToLan.cpp:714-784 | without a failed call the first connection between two active clients links them on both sides and takes one pair, below the cap of three; any other connection leaves every link and the counter as they were |
| LanToLanEffects.DelConnLinks | ipacm/src/IPACM_LanToLan.cpp:837-926 | the end of a pair's last connection takes one link off both sides when both are active, one per end asleep otherwise, none when an end is out of reach; no other pair changes |
| LanToLanEffects.StepLinksFollow | ipacm/src/IPACM_LanToLan.cpp:94-155 | without a failed call every event changes exactly the link counts that the tables before it call for |
| LanToLanEffects.StepOwn | ipacm/src/IPACM_LanToLan.cpp:157-712 | every client's MAC, flags and interface after an event, whatever the hardware answers (for a recovery, without a failed call) |
| LanToLanPower.PowerSaveFrees | ipacm/src/IPACM_LanToLan.cpp:654-712 | when slots and links agree and the next two calls per link are carried out, power save frees exactly the filter slots of the links that the client owns or that point at it, counts them down, and leaves headers, routes, links and all other slots alone |
| LanToLanPower.NapRefills | ipacm/src/IPACM_LanToLan.cpp:1188-1276 | after such a nap add_flt_rules fills a slot for every link again, on both ends, under handles no other link holds, so that each interface's valid filter slots are exactly its clients' links' |
| LanToLanPower.BothAsleepIff | ipacm/src/IPACM_Lan.cpp:3723-3783 | when two clients fall asleep one after the other the slot counters still count the valid filter slots if and only if the two are not linked |
| LanToLanRefusals.NewConnAnyway | ipacm/src/IPACM_LanToLan.cpp:756-781 | whatever the hardware does, a first connection links the far end only when the near end could be linked, and counts the pair only when both could |
| LanToLanRefusals.OfferGoesOn | ipacm/src/IPACM_LanToLan.cpp:276-316 | check_potential_link goes on after a peer that could be linked in neither direction |
| LanToLanRefusals.EraseAnyway | ipacm/src/IPACM_LanToLan.cpp:981-1030 | erase_offload_link drops both list entries even when a delete is refused; the counter then stays |
| LanToLanRefusals.TurnOffStops | ipacm/src/IPACM_LanToLan.cpp:465-521 | turnoff_offload_links stops at the first link it cannot turn off: those before it are gone from their other ends and uncounted, the client's own list stays whole |
| LanToLanRefusals.SaveCalls | ipacm/src/IPACM_LanToLan.cpp:1188-1229 | remove_flt_rules passes over refused deletes and makes its two calls for every link |
| LanToLanRefusals.WakesIff | ipacm/src/IPACM_LanToLan.cpp:1118-1185 | a sleeping client whose filter rules are out wakes if and only if the next two adds per link are carried out |
| LanToLanLimits.OffloadGraph | ipacm/src/IPACM_LanToLan.cpp:157-553 | without power save: a lists b exactly once iff b lists a exactly once, both are active and connected, and num_offload_pair is the number of edges, at most three |
| LanToLanLimits.InstallIff | ipacm/src/IPACM_LanToLan.cpp:318-396 | an install succeeds if and only if both slot tables have room and the next three calls are carried out |
| LanToLanLimits.LinkBothSymmetricIff | ipacm/src/IPACM_LanToLan.cpp:291-304 | whatever the hardware does, a pair added by check_potential_link is symmetric if and only if the second direction can be installed when the first can |
| LanToLanLimits.CrossSymmetricIff | ipacm/src/IPACM_LanToLan.cpp:291-304 | between two interfaces the same, decided by the tables and the replies before the call |
| LanToLanLimits.DisconnectClears | ipacm/src/IPACM_LanToLan.cpp:556-616 | after a disconnect no link points at the erased client if and only if its links could be turned off |
| LanToLanLimits.DisconnectClearsIff | ipacm/src/IPACM_LanToLan.cpp:465-521 | when slots and links agree, that is so if and only if the next six calls per link are carried out |
| LanToLanLimits.RecoverLinks | ipacm/src/IPACM_LanToLan.cpp:1165-1182 | without a failed call, power recovery gives one more link to exactly the first active peers of the list, as many as there are pairs left |
| LanToLanLimits.RecoverDoubles | ipacm/src/IPACM_LanToLan.cpp:1165-1182 | so a peer linked once already is linked twice afterwards if and only if it is among them |
| LanToLanLimits.LeavesIff | ipacm/src/IPACM_LanToLan.cpp:448-461 | whatever the hardware answers, a client leaves the table by exactly three events: its disconnect, its going inactive without a peer (asleep or not), and the end of its only connection while it is inactive and awake |
| LanToLanLimits.NoIdleKeptIff | ipacm/src/IPACM_LanToLan.cpp:605-652 | a table without inactive, awake and unconnected clients stays so under an event if and only if the event clears no peer list, by disconnect or changed MAC, that is some inactive, awake client's only connection |
| LanToLanLimits.InstallUndone | ipacm/src/IPACM_LanToLan.cpp:336-393 | an install that fails at one call leaves headers, routes and all other interfaces as they were; the peer's slots stay as valid as before if and only if no header add was refused after its slot was marked |
| LanToLanSlots.InstallKeeps | ipacm/src/IPACM_LanToLan.cpp:318-396 | with room on both interfaces an offload link's header, route and filter all go in, each under a handle no other link holds |
| LanToLanSlots.RemoveKeepsSlots | ipacm/src/IPACM_LanToLan.cpp:523-554 | del_offload_link frees exactly the link's own three rules |
| LanToLanSlots.Roomy | ipacm/src/IPACM_Lan.cpp:3414-3476 | with linked clients on different interfaces an interface uses at most num_offload_pair slots of either kind, so below the cap a slot search cannot fail |
| LanToLanRuns.StepRun | ipacm/src/IPACM_LanToLan.cpp:157-1030 | with linked clients on different interfaces and hardware that obeys, no event without power save makes any rule call fail, and graph and slots stay in agreement |
| LanToLanRuns.RunStays | ipacm/src/IPACM_LanToLan.cpp:157-1030 | the same over every such run |
| LanToLanRuns.InitInvariant | ipacm/src/IPACM_Lan.cpp:3581-3721 | interfaces with three dummy rules under distinct handles are a legal start |
| LanToLanRuns.SlotsAreLinks | ipacm/src/IPACM_Lan.cpp:3723-3783 | each interface's valid filter slots are exactly the handles in links its clients own, its valid header slots exactly the handles in links pointing at its clients, and the counter counts the valid slots |
| LanToLanFailures.StrandedRun | ipacm/src/IPACM_LanToLan.cpp:605-652 | whatever the driver refuses, a run from the start leaves an idle client in the table |
| LanToLanFailures.SelfRun | ipacm/src/IPACM_LanToLan.cpp:714-835 | a client's connection to itself breaks the peer lists |
| LanToLanFailures.AsymmetricRun | ipacm/src/IPACM_LanToLan.cpp:291-304 | with two refused calls a run ends with a one-sided link |
| LanToLanFailures.DanglingRun | ipacm/src/IPACM_LanToLan.cpp:556-616 | with one refused delete a run ends with a link to a client that is gone |
| LanToLanFailures.DoubledRun | ipacm/src/IPACM_LanToLan.cpp:1165-1182 | with no refused call a power-save nap doubles a link |
| LanToLanFailures.BothAsleepRun | ipacm/src/IPACM_LanToLan.cpp:1188-1229 | with no refused call two linked clients that both fall asleep drive the slot counter to 255, after which no filter rule can be added |
| LanToLanObjects.LanIface.AddFltRule | ipacm/src/IPACM_Lan.cpp:3374-3579 | add_lan2lan_flt_rule over the slot array: first free slot, cap, one driver call |
| LanToLanObjects.LanIface.DelFltRule | ipacm/src/IPACM_Lan.cpp:3723-3882 | del_lan2lan_flt_rule over the slot array: the slot is found by handle, valid or not |
| LanToLanObjects.LanIface.AddHeader | ipacm/src/IPACM_Lan.cpp:3884-4104 | add_lan2lan_hdr over the slot array, with the slot marked valid before the add |
| LanToLanObjects.LanIface.DelHeader | ipacm/src/IPACM_Lan.cpp:4106-4154 | del_lan2lan_hdr over the slot array |
| LanToLanObjects.ClientTable.AddRoute | ipacm/src/IPACM_Lan.cpp:4156-4310 | add_lan2lan_rt_rule: a fresh route handle, or nothing |
| LanToLanObjects.ClientTable.DelRoute | ipacm/src/IPACM_Lan.cpp:4312-4340 | del_lan2lan_rt_rule: exactly that route goes |
| LanToLanObjects.ClientTable.AddOffloadLink | ipacm/src/IPACM_LanToLan.cpp:318-396 | add_offload_link in place: the cap first, then three rule calls with undo, then the list entry |
| LanToLanObjects.ClientTable.RemoveRules | ipacm/src/IPACM_LanToLan.cpp:523-554 | del_offload_link in place: all three deletes are tried |
| LanToLanObjects.ClientTable.CheckPotentialLink | ipacm/src/IPACM_LanToLan.cpp:276-316 | check_potential_link's loop has exactly the effect of the state function |
| LanToLanObjects.ClientTable.TurnOffOffloadLinks | ipacm/src/IPACM_LanToLan.cpp:465-521 | turnoff_offload_links' loop has exactly the effect of the state function, early returns included |
| LanToLanObjects.ClientTable.EraseOffloadLink | ipacm/src/IPACM_LanToLan.cpp:981-1030 | erase_offload_link in place |
| LanToLanObjects.ClientTable.AddPeers | ipacm/src/IPACM_LanToLan.cpp:787-835 | add_connection's two scans in place |
| LanToLanObjects.ClientTable.RemovePeers | ipacm/src/IPACM_LanToLan.cpp:929-979 | remove_connection's two scans in place |
| LanToLanObjects.ClientTable.ClearPeerList | ipacm/src/IPACM_LanToLan.cpp:618-652 | clear_peer_list's loop in place |
| LanToLanObjects.ClientTable.RemoveFltRules | ipacm/src/IPACM_LanToLan.cpp:1188-1229 | remove_flt_rules' loop in place |
| LanToLanObjects.ClientTable.AddFltRules | ipacm/src/IPACM_LanToLan.cpp:1231-1276 | add_flt_rules' loop in place |
| LanToLanObjects.ClientTable.HandleClientActive | ipacm/src/IPACM_LanToLan.cpp:157-274 | handle_client_active on the object is one step of the state machine |
| LanToLanObjects.ClientTable.HandleClientInactive | ipacm/src/IPACM_LanToLan.cpp:398-463 | handle_client_inactive on the object is one step |
| LanToLanObjects.ClientTable.HandleClientDisconnect | ipacm/src/IPACM_LanToLan.cpp:556-616 | handle_client_disconnect on the object is one step |
| LanToLanObjects.ClientTable.HandleClientPowerSave | ipacm/src/IPACM_LanToLan.cpp:654-712 | handle_client_power_save on the object is one step |
| LanToLanObjects.ClientTable.HandleClientPowerRecover | ipacm/src/IPACM_LanToLan.cpp:1118-1185 | handle_client_power_recover on the object is one step |
| LanToLanObjects.ClientTable.HandleNewConnection | ipacm/src/IPACM_LanToLan.cpp:714-784 | handle_new_lan2lan_connection on the object is one step |
| LanToLanObjects.ClientTable.HandleDelConnection | ipacm/src/IPACM_LanToLan.cpp:837-926 | handle_del_lan2lan_connection on the object is one step |
| LanToLanObjects.ClientTable.HandleEvents | ipacm/src/IPACM_LanToLan.cpp:94-155 | the callbacks of a whole run have exactly the effect of the state machine's run |
| Connections.GeneratedOnce | ipacm/src/IPACM_LanToLan.cpp:1032-1116 | generate_new_connection posts one event per active client of another interface category and never one to the client itself |
| Connections.UncachedOnce | ipacm/src/IPACM_LanToLan.cpp:1488-1524 | remove_cache_connection removes one occurrence of the connection and nothing else |
| Connections.CheckSplits | ipacm/src/IPACM_LanToLan.cpp:1526-1605 | what check_cache_connection posts and what it keeps are together exactly what was cached |
| Connections.PostsIs | ipacm/src/IPACM_LanToLan.cpp:1032-1605 | what a callback posts: without CT_OPT one connection to each active client of another category; with it, after an activation, the client's cached connections whose other end is known, which leave the cache |
| Connections.ReportIs | ipacm/src/IPACM_LanToLan.cpp:1278-1605 | what a conntrack report does: posted when it joins two categories, otherwise cached or taken from the cache; a cache that is not full keeps what it had |
| Connections.DeliverIs | ipacm/src/IPACM_CmdQueue.cpp:141-199 | the oldest internal event is served before any external one, and what its callback posts goes behind the external ones |
| Connections.PostIs | ipacm/src/IPACM_EvtDispatcher.cpp:53-95 | a client event goes behind the internal events |
| Connections.ExternalIff | ipacm/inc/IPACM_Defs.h:138-202 | by their numbers, connection events are external and client events internal |
| Connections.ConnectionCache.Cache | ipacm/src/IPACM_LanToLan.cpp:1458-1486 | a full cache of twenty is cleared before the new connection is appended |
| Connections.ConnectionCache.Remove | ipacm/src/IPACM_LanToLan.cpp:1488-1524 | the search loop erases the first equal entry |
| Connections.ConnectionCache.Check | ipacm/src/IPACM_LanToLan.cpp:1526-1605 | the erase-while-walking loop posts exactly the ripe connections, in order, and keeps exactly the others |
| Connections.ActsKeep | ipacm/src/IPACM_LanToLan.cpp:1032-1605 | in every run of events, conntrack reports and deliveries from the two queues, in either build, in which conntrack reports no address connected to itself, no client is ever connected to itself, the cache holds at most twenty and the peer lists stay well formed |
| Connections.LanIsRun | ipacm/src/IPACM_EvtDispatcher.cpp:51-95 | the table after a run of the loop is that of a run of the events taken from the two queues, internal ones first, and none of these connects a client to itself |
| Connections.CacheSkipsCategory | ipacm/src/IPACM_LanToLan.cpp:1526-1605 | a callback posts a connection between two clients of one category if and only if, in the CT_OPT build, it activates a client of which a connection is cached to a client on an interface of that category |
| Connections.SameCategoryRun | ipacm/src/IPACM_LanToLan.cpp:1278-1320 | a connection reported before its ends are known is cached and posted when the second arrives on the same interface |
| NatMirror.ExactIff | ipacm/src/IPACM_Conntrack_NATApp.cpp:254-293 | the hardware holds exactly the enabled slots' rules if and only if no cleared slot's delete was refused; with no table no slot is enabled |
| NatMirror.InitInv | ipacm/src/IPACM_Conntrack_NATApp.cpp:36-109 | the initial object satisfies the invariant |
| NatMirror.AddEntryInv | ipacm/src/IPACM_Conntrack_NATApp.cpp:296-398 | AddEntry keeps cache and hardware in agreement, whatever the driver answers |
| NatMirror.CacheEntryInv | ipacm/src/IPACM_Conntrack_NATApp.cpp:871-929 | CacheEntry keeps the agreement |
| NatMirror.DeleteEntryInvIff | ipacm/src/IPACM_Conntrack_NATApp.cpp:254-293 | DeleteEntry keeps the cache well formed if and only if the tuple is not all zero or no slot is free |
| NatRuns.ZeroDeleteRun | ipacm/src/IPACM_Conntrack_NATApp.cpp:254-293 | in the initial state already, deleting the all-zero tuple breaks the count |
| NatMirror.SweepInv | ipacm/src/IPACM_Conntrack_NATApp.cpp:553-659 | the five loops over the cache keep the agreement slot by slot |
| NatMirror.AddTableInv | ipacm/src/IPACM_Conntrack_NATApp.cpp:129-189 | AddTable keeps the agreement, restore loop included |
| NatMirror.DeleteTableInv | ipacm/src/IPACM_Conntrack_NATApp.cpp:191-228 | DeleteTable and Reset keep the agreement |
| NatMirror.FlushInv | ipacm/src/IPACM_Conntrack_NATApp.cpp:749-788 | FlushTempEntries keeps the agreement |
| NatMirror.StampInv | ipacm/src/IPACM_Conntrack_NATApp.cpp:484-520 | UpdateUDPTimeStamp keeps the agreement although it may delete the slot it visits |
| NatMirror.RunInv | ipacm/src/IPACM_Conntrack_NATApp.cpp:129-929 | in every run, with any hardware: keys all zero or all non-zero, no tuple twice, curCnt the occupied count, enabled rules installed under distinct handles, and nothing else installed but rules of refused deletes |
| NatEffects.RunTranslated | ipacm/src/IPACM_Conntrack_NATApp.cpp:335-398 | in every run each enabled slot's rule is installed with the slot's tuple and public port |
| NatEffects.AddEffectIs | ipacm/src/IPACM_Conntrack_NATApp.cpp:296-398 | AddEntry's effect and result, field by field: when it refuses (no table, either port an ALG's, known tuple, no free slot), and what the first free slot and the hardware hold otherwise |
| NatEffects.CacheEffectIs | ipacm/src/IPACM_Conntrack_NATApp.cpp:871-929 | CacheEntry's effect, field by field |
| NatEffects.DeleteEffectIs | ipacm/src/IPACM_Conntrack_NATApp.cpp:254-293 | DeleteEntry empties the tuple's slot and deletes its rule, and touches no other |
| NatEffects.UpEffectIs | ipacm/src/IPACM_Conntrack_NATApp.cpp:129-189 | AddTable's effect: the cache is touched only when the address is the previous one |
| NatEffects.DownEffectIs | ipacm/src/IPACM_Conntrack_NATApp.cpp:191-228 | DeleteTable's effect: slot by slot the cache stays, disabled |
| NatEffects.ClientGoneEffect | ipacm/src/IPACM_Conntrack_NATApp.cpp:790-835 | with no delete refused a lost client's rules, and no others, leave the hardware; its slots stay, disabled, all others are untouched; it is off the power-save list |
| NatEffects.StaGoneEffect | ipacm/src/IPACM_Conntrack_NATApp.cpp:837-869 | with no delete refused a lost station's slots are emptied and its rules deleted, nothing else |
| NatEffects.GoneRefused | ipacm/src/IPACM_Conntrack_NATApp.cpp:790-869 | a refused delete leaves the slot as it was |
| NatEffects.SleepExact | ipacm/src/IPACM_Conntrack_NATApp.cpp:553-600 | with no delete refused a client falling asleep loses its rules, and no others; every other slot is untouched; the list grows by it if there was a place |
| NatEffects.WakeExact | ipacm/src/IPACM_Conntrack_NATApp.cpp:602-659 | a waking client's slots are each installed again with their own tuple and port, or emptied when refused; everything else is untouched |
| NatEffects.NobodyNamed | ipacm/src/IPACM_Conntrack_NATApp.cpp:553-869 | the zero address does nothing in any of the four operations, nor does putting a listed client to sleep again |
| NatEffects.TempEffectIs | ipacm/src/IPACM_Conntrack_NATApp.cpp:671-719 | AddTempEntry's effect: when it refuses, and that the first blank slot becomes the entry |
| NatEffects.TempGoneIs | ipacm/src/IPACM_Conntrack_NATApp.cpp:721-747 | DeleteTempEntry empties the first slot with the tuple and no other |
| NatEffects.FlushIs | ipacm/src/IPACM_Conntrack_NATApp.cpp:749-788 | slot by slot what a flush makes of the temp entries: a current one is handed over with its port and direction and cleared, and stays only when NatApp cannot take it |
| NatRuns.RunExact | ipacm/src/IPACM_Conntrack_NATApp.cpp:129-929 | as long as no delete is refused, in every reachable state the installed rules are exactly those of the enabled slots |
| NatRuns.WanBounce | ipacm/src/IPACM_Conntrack_NATApp.cpp:129-228 | the table goes and returns with the same address, with any operations in between: the hardware then holds exactly the cache, each refused add cost one entry and one count, all others are enabled with their tuples unchanged |
| NatRuns.StepQuiet | ipacm/src/IPACM_Conntrack_NATApp.cpp:553-659 | every step but a table's arrival keeps sleeping clients' rules out of the hardware, a power-save step provided its deletes are not refused |
| NatRuns.AddTableQuietIff | ipacm/src/IPACM_Conntrack_NATApp.cpp:149-184 | a returning table, its adds not refused, keeps them out if and only if nothing is put back or no cached connection belongs to a sleeping client |
| NatRuns.QuietLostRun | ipacm/src/IPACM_Conntrack_NATApp.cpp:149-184 | a run from the start in which a returning table puts a sleeping client's rule back |
| NatRuns.RunNoDup | ipacm/src/IPACM_Conntrack_NATApp.cpp:565-581 | the power-save list never holds an address twice |
| NatRuns.PowerRoundTrip | ipacm/src/IPACM_Conntrack_NATApp.cpp:553-659 | a client sleeps, connections are added, it wakes, with no delete refused on the way down and no add on the way up: asleep none of its connections is installed if the list had a place for it, awake every one is, old and new, and no slot was lost |
| NatRuns.WakeKeepsIff | ipacm/src/IPACM_Conntrack_NATApp.cpp:602-659 | on hardware that accepts what it can, waking loses none of the client's connections if and only if the table is up or none was cached |
| NatRuns.WakeLosesRun | ipacm/src/IPACM_Conntrack_NATApp.cpp:602-659 | a run from the start in which a waking client's connection is lost |
| NatRuns.FlushKeeps | ipacm/src/IPACM_Conntrack_NATApp.cpp:749-788 | a flush leaves slots not naming the address untouched and loses no valid tuple with the current public address: it is cached afterwards or still in its slot |
| NatRuns.FlushDropsAll | ipacm/src/IPACM_Conntrack_NATApp.cpp:749-788 | a flush that does not add leaves no temp slot naming the address |
| NatRuns.TempRoundTrip | ipacm/src/IPACM_Conntrack_NATApp.cpp:671-747 | a temp entry taken in and closed again leaves the state as it was; it is taken in exactly when it uses no ALG port, is in neither array and a slot is free |
| NatRuns.StampKeeps | ipacm/src/IPACM_Conntrack_NATApp.cpp:400-520 | the time-stamp loop judges each slot on its own: a forgotten connection's slot is cleared, and it is the visited one |
| NatObjects.NatApp.AddTable | ipacm/src/IPACM_Conntrack_NATApp.cpp:129-189 | the restore loop over the array has exactly the effect of the state function |
| NatObjects.NatApp.DeleteTable | ipacm/src/IPACM_Conntrack_NATApp.cpp:191-228 | DeleteTable and Reset's loop in place |
| NatObjects.NatApp.AddEntry | ipacm/src/IPACM_Conntrack_NATApp.cpp:296-398 | AddEntry in place, with its return value |
| NatObjects.NatApp.DeleteEntry | ipacm/src/IPACM_Conntrack_NATApp.cpp:254-293 | DeleteEntry in place |
| NatObjects.NatApp.CacheEntry | ipacm/src/IPACM_Conntrack_NATApp.cpp:871-929 | CacheEntry in place |
| NatObjects.NatApp.IsDup | ipacm/src/IPACM_Conntrack_NATApp.cpp:231-251 | ChkForDup answers whether the tuple is in the cache |
| NatObjects.NatApp.IsPwrSaveIf | ipacm/src/IPACM_Conntrack_NATApp.cpp:537-551 | isPwrSaveIf answers whether a non-zero address is listed |
| NatObjects.NatApp.UpdatePwrSaveIf | ipacm/src/IPACM_Conntrack_NATApp.cpp:553-600 | UpdatePwrSaveIf in place, a full list included |
| NatObjects.NatApp.ResetPwrSaveIf | ipacm/src/IPACM_Conntrack_NATApp.cpp:602-659 | ResetPwrSaveIf in place |
| NatObjects.NatApp.DelEntriesOnClntDiscon | ipacm/src/IPACM_Conntrack_NATApp.cpp:790-835 | DelEntriesOnClntDiscon in place |
| NatObjects.NatApp.DelEntriesOnSTAClntDiscon | ipacm/src/IPACM_Conntrack_NATApp.cpp:837-869 | DelEntriesOnSTAClntDiscon in place |
| NatObjects.NatApp.AddTempEntry | ipacm/src/IPACM_Conntrack_NATApp.cpp:671-719 | AddTempEntry in place |
| NatObjects.NatApp.DeleteTempEntry | ipacm/src/IPACM_Conntrack_NATApp.cpp:721-747 | DeleteTempEntry in place |
| NatObjects.NatApp.FlushTempEntries | ipacm/src/IPACM_Conntrack_NATApp.cpp:749-788 | FlushTempEntries' loop in place |
| NatObjects.NatApp.UpdateUDPTimeStamp | ipacm/src/IPACM_Conntrack_NATApp.cpp:484-520 | UpdateUDPTimeStamp's loop in place |
| NatObjects.NatApp.Do | ipacm/src/IPACM_Conntrack_NATApp.cpp:129-929 | every public entry point is one step of the state machine |
| Conntrack.TupleRoundTripIff | ipacm/src/IPACM_ConntrackListener.cpp:1013-1131 | the tuple handed back to the kernel is the connection's own if and only if, for destination NAT, it was sent to the WAN address and, for source NAT, its private end was kept |
| Conntrack.StoredRoundTrip | ipacm/src/IPACM_Conntrack_NATApp.cpp:428-459 | the same of the slot the entry ends up in, added or cached |
| Conntrack.InStepIff | ipacm/src/IPACM_ConntrackListener.cpp:353-477 | WanUp and the NAT table stay in step if and only if a WAN that comes up finds no table and the next call carried out, and one that goes down has the address it came up with and the next call carried out |
| Conntrack.OtherAddressRun | ipacm/src/IPACM_ConntrackListener.cpp:464-477 | a run from the start in which a WAN goes down under another address and leaves its table behind |
| Conntrack.ListenerRun | ipacm/src/IPACM_ConntrackListener.cpp:69-138 | listener and table are in step all through a run if and only if every table call of the run is served |
| Conntrack.ListenerInv | ipacm/src/IPACM_ConntrackListener.cpp:69-138 | over every run of WAN events and conntrack messages, served or not, cache and hardware agree |
| ConntrackMessages.MessageEntry | ipacm/src/IPACM_ConntrackListener.cpp:1013-1131 | read off message and configuration: which messages are ignored, and which entry, temporary or not, the others become |
| ConntrackMessages.MessageEffect | ipacm/src/IPACM_ConntrackListener.cpp:761-849 | what a message does to cache, temp entries and hardware, stated without the routing functions |
| ConntrackMessages.WanEffect | ipacm/src/IPACM_ConntrackListener.cpp:353-477 | what a WAN event does to the listener and the table |
| ConntrackMessages.NatClientInstalled | ipacm/src/IPACM_ConntrackListener.cpp:851-943 | end to end: a NAT client's opened connection that the hardware takes is installed with the original tuple and the reply's port (source NAT) or the reply's end and the original port (destination NAT), and the temp entries stay |
| ConntrackMessages.NatClientGoesOn | ipacm/src/IPACM_ConntrackListener.cpp:697-729 | a NAT client's message in a WAN that is no station's is neither ignored nor made to wait |
| ConntrackMessages.PrivateWaits | ipacm/src/IPACM_ConntrackListener.cpp:742-755 | a connection known only by private addresses goes to the temp entries and leaves cache and hardware alone |
| Conntrack.OpenRemembered | ipacm/src/IPACM_ConntrackListener.cpp:766-804 | an opened TCP or UDP connection is in the cache or among the temp entries afterwards if and only if it was before or there is a place for it: a free slot, no ALG port, a table and an accepting driver, as the branch it takes requires |
| Conntrack.CloseForgets | ipacm/src/IPACM_ConntrackListener.cpp:786-849 | a closed TCP or UDP connection's tuple is in no cache slot any more, its rule is gone unless the hardware refused, and no temp slot holds it if and only if at most one did |
| Conntrack.ListenerTemps | ipacm/src/IPACM_ConntrackListener.cpp:69-138 | at most one does, over every run without a dummy flush |
| Conntrack.DummyFlushRun | ipacm/src/IPACM_Conntrack_NATApp.cpp:749-788 | after a dummy flush of two entries that are not accepted, closing their common tuple leaves one behind |
| ConntrackObjects.ConntrackListener.AddORDeleteNatEntry | ipacm/src/IPACM_ConntrackListener.cpp:761-849 | the routing of opened and closed connections in place |
| ConntrackObjects.ConntrackListener.TriggerWANUp | ipacm/src/IPACM_ConntrackListener.cpp:353-381 | TriggerWANUp in place |
| ConntrackObjects.ConntrackListener.TriggerWANDown | ipacm/src/IPACM_ConntrackListener.cpp:464-477 | TriggerWANDown in place |
| ConntrackObjects.ConntrackListener.Callback | ipacm/src/IPACM_ConntrackListener.cpp:69-138 | event_callback is one step of the state machine |
| MessageQueues.MessageQueue.Enqueue | ipacm/src/IPACM_CmdQueue.cpp:81-101 | appends to the sequence the links stand for; the null-tail branch is dead and a deleted message is never touched, although the tail goes stale |
| MessageQueues.MessageQueue.Dequeue | ipacm/src/IPACM_CmdQueue.cpp:104-117 | takes the oldest message, null exactly when there is none |
| MessageQueues.Queues.Post | ipacm/src/IPACM_EvtDispatcher.cpp:51-95 | events below IPA_EXTERNAL_EVENT_MAX go to the external queue, the others to the internal one |
| MessageQueues.Queues.Take | ipacm/src/IPACM_CmdQueue.cpp:148-163 | the external queue is served only when the internal one is empty |
| MessageQueues.Queues.ProcessOne | ipacm/src/IPACM_CmdQueue.cpp:196-200 | one item is taken, processed and deleted, exactly once and never while it is linked |
| MessagePump.RunInv | ipacm/src/IPACM_CmdQueue.cpp:120-205 | mutual exclusion, conservation per class and the wakeup invariant in every interleaving of any number of producers and the consumer |
| MessagePump.NoLostWakeup | ipacm/src/IPACM_CmdQueue.cpp:141-203 | in every interleaving a consumer asleep with the mutex free has empty queues if and only if no signal failed during this sleep |
| MessagePump.FailedSignalSleeps | ipacm/src/IPACM_EvtDispatcher.cpp:87-113 | with one failed signal there is a run that leaves it asleep over a queued event |
| MessagePump.Fifo | ipacm/src/IPACM_CmdQueue.cpp:81-163 | per class, what was queued is what was processed, then what is in hand, then what is pending, in order |
| MessagePump.InternalFirst | ipacm/src/IPACM_CmdQueue.cpp:148-163 | in every interleaving an external event is taken only when no internal one is pending |
| MessagePump.TakesAsOne | ipacm/src/IPACM_CmdQueue.cpp:148-163 | the protocol's two dequeue steps are the queues' Take |
| MessagePump.Drains | ipacm/src/IPACM_CmdQueue.cpp:139-203 | once the producers are done, a consumer that is not asleep over a queued event processes by itself everything queued, each class in order, and goes back to sleep |
| MessagePump.DrainsIff | ipacm/src/IPACM_CmdQueue.cpp:139-203 | after any schedule that leaves the producers done it does so if no signal was lost; if one was, nothing but a spurious wakeup or a new post changes anything |
| ListenerObjects.Registry.Registr | ipacm/src/IPACM_EvtDispatcher.cpp:150-179 | registr appends one registration at the end of the linked list |
| ListenerObjects.Registry.Deregistr | ipacm/src/IPACM_EvtDispatcher.cpp:182-214 | the in-place loop yields exactly the old list without the object's nodes, order kept, never touching a freed node |
| ListenerObjects.Registry.Search | ipacm/src/IPACM_IfaceManager.cpp:526-546 | SearchInstance finds an index exactly when some instance has it |
| ListenerObjects.Registry.ProcessEvt | ipacm/src/IPACM_EvtDispatcher.cpp:118-140 | whenever the value walk is not wild the pointer walk follows no freed node and makes the same calls |
| Listeners.DispatchTidy | ipacm/src/IPACM_EvtDispatcher.cpp:118-140 | each matching registration is called exactly once in registration order when deleting callbacks run at their object's last registration |
| Listeners.DeleteSelfIff | ipacm/src/IPACM_EvtDispatcher.cpp:124-136 | when one object deletes itself the walk touches a freed node if and only if the next node is its own; exactly its registrations go |
| Interfaces.RunInv | ipacm/src/IPACM_IfaceManager.cpp:203-457 | in every run of link-ups and deletions no two instances have one interface index, and the event list is exactly the live instances' blocks |
| Interfaces.StartRun | ipacm/src/IPACM_IfaceManager.cpp:203-457 | so from the start, with only the permanent listeners registered |
| Interfaces.LinkUpIs | ipacm/src/IPACM_IfaceManager.cpp:203-457 | a link that comes up gets an instance registered for its kind's events, unless its index has one |
| Interfaces.DeletedIs | ipacm/src/IPACM_EvtDispatcher.cpp:182-214 | a deleted instance leaves both lists and nobody else does |
| Interfaces.TwoClasses | ipacm/inc/IPACM_Defs.h:138-202 | every event an instance registers for is a report from outside, sent through the external queue, or another handler's, sent through the internal one |
| Interfaces.DeleteSelfSafeIff | ipacm/src/IPACM_IfaceManager.cpp:224-452 | in every reachable state an instance's self-deletion is safe if and only if the deleting event is its last registration, as for LAN, ETH and ODU |
| Interfaces.WlanDeleteRun | ipacm/src/IPACM_IfaceManager.cpp:224-452 | the first interface comes up as WLAN and deletes itself: the walk goes on to a freed node |
| ResourceManager.RunMeans | ipacm/src/IPACM_Config.cpp:562-768 | in every run, whatever the driver answers, an entry is set exactly when both its ends are up, and all flags are those of the set of resources that are up |
| ResourceManager.TwelveEdges | ipacm/src/IPACM_Config.cpp:387-417 | the table's twelve dependencies all differ |
| ResourceManager.RunExact | ipacm/src/IPACM_Config.cpp:562-768 | if producers keep their bypass flag while in use and the driver refuses nothing, its dependencies are exactly the two (one when bypassed) of each set entry |
| ResourceManager.DependsIff | ipacm/src/IPACM_Config.cpp:387-417 | under the same conditions a kind's producer depends on another kind's consumer if and only if the lower kind's producer and the higher kind's consumer are up and it is not a bypassed lower one's |
| ResourceManager.NoOtherDependency | ipacm/src/IPACM_Config.cpp:387-417 | and there is no other dependency |
| ResourceManager.AddExactIff | ipacm/src/IPACM_Config.cpp:579-590 | an add keeps them exact if and only if it does not change the flag of a producer some set entry uses |
| ResourceManager.FlagRun | ipacm/src/IPACM_Config.cpp:579-590 | a run from the start, every call accepted, that leaves a stale dependency |
| ResourceManager.CountedIff | ipacm/src/IPACM_Config.cpp:720-729 | the consumer stays up as long as routes are left if and only if at most two were |
| ResourceManager.ThreeRoutesRun | ipacm/src/IPACM_Config.cpp:720-729 | with three routes the first that goes takes the consumer down |
| ResourceManager.RunCounted | ipacm/src/IPACM_Config.cpp:568-573 | with at most two routes at any time the Q6 consumer is up exactly while one is left |
| ResourceManager.Config.AddDepend | ipacm/src/IPACM_Config.cpp:562-665 | AddRmDepend's loop over the array has exactly the effect of the state function |
| ResourceManager.Config.DelDepend | ipacm/src/IPACM_Config.cpp:670-768 | DelRmDepend's loop in place, its continue included |
| EthClients.WithoutKeeps | ipacm/src/IPACM_Lan.cpp:2639-2690 | removing a client leaves every other one in the list with all its parts, and MACs distinct |
| EthClients.EthTable.HdrInit | ipacm/src/IPACM_Lan.cpp:1678-1951 | a known or a sixteenth client is refused, otherwise one client with the new headers is appended; without tx properties success is reported and nobody counted |
| EthClients.EthTable.AddV6 | ipacm/src/IPACM_Lan.cpp:2011-2046 | a known client's new v6 address is appended if and only if there are fewer than three, and to that client only; the zero address passes without being stored |
| EthClients.EthTable.AddRoutes6 | ipacm/src/IPACM_Lan.cpp:2163-2248 | new addresses get routing handles if and only if no rule is refused, those that had some keep them, other clients are untouched; a refused rule leaves every client as it was |
| EthClients.EthTable.Compact | ipacm/src/IPACM_Lan.cpp:2647-2689 | the shifting loop removes just that element: survivors keep headers, addresses and handles |
| EthClients.EthTable.ClientDown | ipacm/src/IPACM_Lan.cpp:2583-2705 | a client goes down if and only if no delete that it needs (routes it has, headers it has) is refused; otherwise every client stays |

## Left out

- The layout of the hardware NAT table and the ioctl interfaces: handles are fresh numbers and calls succeed or fail.
- Message contents, logging, thread creation, netlink and conntrack decoding, reading XML and /proc files.
- Failing memory allocation, and a mutex that cannot be locked.
- Contents of filter, routing and header rules, and header names.
- The destructor of IPACM_LanToLan, GetTableHdl, and the reading of conntrack timeouts.
- The eth_bridge tables: an entry goes when either family is unset, so they carry no invariant to connect with the rules.
- IPACM_Neighbor, CheckNatIface, and the updates of the listener's client address arrays: small tables or settled by enumeration.
- LanToLanObjects.ClientTable.AddRoute: the routes of a link are one all-or-nothing call, where the source adds one per tx property.
- LanToLanObjects.ClientTable.DelRoute: one handle stands for the source's list of routes.
- LanToLanObjects.LanIface.AddHeader: an interface without a tx property of the family, for which the source reports success and hands out no header handle, is not modelled.
- LanToLanRuns.SlotsAreLinks: not stated across power-save events, whose repeated deletes and links break it (see LanToLanPower.BothAsleepIff and LanToLanLimits.RecoverDoubles); LanToLanPower says what one nap does.
- LanToLanGraph.StepInv: assumes no failed rule call, because a failed install makes the lists asymmetric (see LinkBothSymmetricIff).
- LanToLanObjects.ClientTable.HandleClientActive: IPv4 and IPv6 tables run the same code and are one table with an abstract key; the 64-bit truncation of IPv6 keys is not modelled.
- Connections.ConnectionCache.Check: compares table keys, where the source compares full IPv6 addresses with truncated keys.
- NatMirror.InitInv: starts PwrSaveIfs and pub_ip_addr_pre at zero, which the source's constructor leaves unset.
- NatObjects.NatApp.UpdateUDPTimeStamp: one sequential loop; in the source it runs on a thread of its own without a lock.
- Conntrack.ListenerInv: temporary entries for STA clients and the callers that flush them are operations of the environment.
- Registrations that a callback makes during a dispatch: Listeners.Walk covers callbacks that deregister their own object.
- EthClients.EthTable.AddV6: the IPv4 half of handle_eth_client_ipaddr is not modelled.
- EthClients.EthTable.AddRoutes6: the rules that a refused call leaves in the hardware, and the resource-manager calls, are not modelled.
- EthClients.EthTable.ClientDown: the deletes of one family's routes are one call.
- MessagePump.NoLostWakeup: the failure paths of pthread_mutex_lock and pthread_cond_wait end the thread in the source and are not steps.
