# Distributed monitors over a token protocol

This project models a library of distributed monitors. A monitor's lock and its properties travel between the nodes of a
fixed cluster as a token; a node that wants the lock broadcasts a numbered request, and the token carries the number last
served for every node (LN) and the queue of nodes waiting (Q), while each node keeps the latest number it has heard from
everyone (RN). One distinguished token, the system token, carries the set of monitors that exist, so that only its holder
may create another one. Underneath, TCP connections carry length-prefixed packets, and a marshaller turns property maps into
bytes.

## Layers

1. **One token, abstractly.** `SuzukiKasami` is the algorithm with the token in one place. `Token`, `Slot` and `World` are
   the record, one node's entries for one token with every handler's effect on them, and all slots and packets of one token.
   `Refinement`, `Events` and `Monitors` show that each handler is a move of the algorithm. `UserEvents` lists the nine kinds
   of event a user monitor can see; `Brackets`, `Attention`, `Values` and `OneLock` say what each of them keeps: numbers and
   queue, requests under way, the value that travels with the token, and one shared lock.
2. **The cluster.** `Node` is the state of a `ClusterLoop` with each handler as a function; `Cluster` is n nodes, the packets
   in flight and one atomic step per handled event. `Startup`, `Tokens`, `Coupling`, `Users` (every step is, for each
   monitor, one of its events), `Exclusion` and `Runs` carry the invariants through every step.
3. **What runs guarantee.** `Theorems`, `SharedMonitor`, `Always` (numbers, queue, lost requests), `Conservation`, `Bypass`
   (the queue moves on, step by step), `Pending` (what an entry in m_pendingRequests stands for), `Waiting` (what becomes of
   an entry in m_pendingGrants, up to every lock being granted), `Creation` (what a declaration does, state by state), and
   `Witness`, four runs of a cluster of three (`ThreeNodes`).
4. **The objects.** `TokenRecord` (arrays, queue and flags updated in place) and `ClusterLoop` in module `Loop` (maps of such
   records, sets, counters, an outbox) are classes; every handler is proved equal to the function of the same event in `Node`
   (by way of `Handlers`), and the packets it queues are proved to be the ones that function sends, each once.
   `ClusterLoop.Run` does so for any sequence of events (`NodeEvents`), and `Embedding` shows that what a node goes through
   in any run of a cluster is such a sequence and leads to that node's state.
5. **Bytes.** `Codec` and `Marshaller` (formats and loops), `TokenMap` and `Handoff` (a token's way through a property map),
   `Packets`, `Rounds` (what a series of reads or writes comes to), `Receive`, `Clients`, `Connections` and `Channel`
   (framing, send queues, half-closed connections, the loop of the TCP manager over any events), `Messages`, and `Layout`,
   which says of every encoder, position by position, what is on the wire.

## Assumptions

- **Channels.** Nodes and connections do not fail, node numbers are distinct and smaller than n, and a peer's Connected
  event is handled before its packets. `Cluster` delivers packets in any order at all, which covers the FIFO order that
  `Channel` proves of a connection; `Witness` uses in-order delivery only.
- **Locking discipline (L).** A process writes a monitor's properties only while its node is inside the monitor, and every
  process binds the same property names to a monitor. Lock and unlock events may otherwise come at any time.
- **Names.** No user monitor is called `___system_token` (the type `TokenId` keeps them apart), and no property is called
  `___token_ln` or `___token_queue`.
- **H.** A lock is handled only at a node whose record of the monitor, if it has one, has `created` set. The code does not
  check this. Results that need it say so by `Run(true, ...)`; everything stated of `Run(informed, ...)` with `informed`
  arbitrary holds without it.
- **Bound.** A node's own request numbers stay below 2^32 - 1. Arithmetic on them is the source's u32 arithmetic.

Where the handshake's first loop erases from the set it walks (lib/cluster_loop.cpp:196-208), the model walks a snapshot of
it. Grants are modelled up to the locked flag; waking the process up is not part of the model.

## The assumption H

- Without H a token can be lost. `Conservation.ConservedExactly` says when: a monitor's token is conserved over a run if and
  only if no step takes the branch at lib/cluster_loop.cpp:256-260 for an entry that owns its token, is not marked as
  created, and is listed by the arriving system token. `Witness.TokenLost` is a run of three nodes, in order on every
  channel, that takes it.
- Without H a request can be lost. `Always.LosesNoneExactly` says when: no request is lost in any state of a run if and only
  if no step takes the branch at lib/cluster_loop.cpp:265-268 for an entry that nobody at the node waits for but for which
  the node has already heard a request. The monitor is created there, and the request is not looked at again.
  `Witness.RequestLost` is a run that takes it, again of three nodes and in order on every channel.
- Without H a node can be left waiting for ever. `Pending.PendingExactly` says when: in every state of a run the nodes that
  have a monitor in m_pendingRequests are those with an open request (their own number is one above LN, and they do not have
  the token), if and only if no step takes the branch at lib/cluster_loop.cpp:265-268 at a node that has the monitor in
  m_pendingRequests. After such a step the entry outlives the request: `Pending.StrandedFrom` and `Pending.StrandedStays`
  say that the node makes no request any more and that the token, once passed on, never comes back.
  `Witness.LeftWaiting` is a run that ends with such a node waiting in a quiet cluster.
- These three are all that can go wrong with requests: `Pending.QuietMeansServedAlways` says that a run without any of these
  steps, under H or not, leaves nobody unserved or pending once nothing is on its way and nobody is inside.
- One more step leaves somebody waiting, with or without H. `Waiting.WaitingExactly` says which: in every state of a run,
  whoever waits at a node that is up has asked for the token, or has a record that the system token is yet to settle, if and
  only if no last handshake arrives (lib/cluster_loop.cpp:194-216) where somebody waits for a monitor that the node knows to
  exist, does not have and has not asked for. Such a lock came before the node was up, and lib/cluster_loop.cpp:364-372 only
  notes it. `Witness.NeverGranted` is a run that ends so, under H, of three nodes and in order on every channel.
- Without any of the four steps every lock is granted: `Waiting.QuietMeansGranted` and `Waiting.EveryLockIsGranted` say that
  once nothing is on its way and nobody is inside, nobody waits, and whoever locked has been inside since.
- What needs H and what does not: mutual exclusion, minting at most once, that whoever is inside sees the last write, the
  startup barrier, the request-number bracket, the shape of the queue, and that no arriving token is dropped hold in every
  run. A user monitor's token moves onwards in its queue, and the bypass is bounded, as long as the token is not lost
  (`Bypass.RunOnwardExactly`, `Bypass.BoundedBypass`). Exactly one token, no lost request and the refinement to one shared
  lock are about runs under H.

## Model

| member | source | states |
|---|---|---|
| Token.Latecomers | lib/token.cpp:47-51 | the nodes that release appends: exactly those that are not queued and whose RN is one above LN, in ascending order |
| Token.ReleaseFrame | lib/token.cpp:33-56 | release sets LN[i] to RN[i] and touches no other LN, no RN and no flag; the old queue stays as a prefix and i itself is never appended |
| Token.ReleaseQueue | lib/token.cpp:40-53 | after release x is queued if and only if it was queued before or its RN is one above its LN |
| Token.ReleaseNoDup | lib/token.cpp:36-53 | a queue without duplicates stays without duplicates |
| Token.ReleaseOrderAndIdempotence | lib/token.cpp:40-53 | the nodes appended are in ascending order, and releasing twice is releasing once |
| TokenRecord.TokenPrivateData.constructor | lib/token.cpp:10-15 | a new record has zero arrays, an empty queue, the given flags and is not locked |
| TokenRecord.TokenPrivateData.IncrementRequestNumber | lib/token.cpp:23-26 | RN[node] goes up by one in u32 arithmetic, in place, and is returned; nothing else changes |
| TokenRecord.TokenPrivateData.UpdateRequestNumber | lib/token.cpp:28-31 | RN[node] becomes the larger of its value and the number received, in place |
| TokenRecord.TokenPrivateData.Release | lib/token.cpp:33-56 | the two loops on the arrays and the queue compute Token.Release, and the result says whether anybody is queued |
| TokenRecord.TokenPrivateData.DrainQueue | lib/token.cpp:39-45 | the first loop copies the queue in order and collects its members |
| TokenRecord.TokenPrivateData.AddLatecomers | lib/token.cpp:47-51 | the second loop appends exactly the latecomers |
| TokenRecord.TokenPrivateData.SaveProperties | lib/token.cpp:141-171 | LN and Q go into the map under their reserved names without replacing anything, and for the system token the monitor set in some order |
| TokenRecord.TokenPrivateData.ListMonitors | lib/token.cpp:257-266 | the vector lists every monitor of the set exactly once |
| TokenRecord.TokenPrivateData.LoadProperties | lib/token.cpp:103-139 | Q and LN are replaced, by whatever they hold, when both entries are there and LN has one element per node, else nothing changes; RN and the flags never do; the system token also replaces its monitor set |
| SuzukiKasami.AskKeeps | lib/cluster_loop.cpp:427-444 | a new request by a node that is not asking and does not have the token keeps the algorithm's invariant |
| SuzukiKasami.HearKeeps | lib/token.cpp:28-31 | hearing a request keeps the invariant, except of a new request at an idle owner, which must answer |
| SuzukiKasami.LeaveKeeps | lib/cluster_loop.cpp:389-397 | releasing and passing the token to the head of the queue keeps the invariant |
| SuzukiKasami.ReleasedAccounts | lib/token.cpp:33-56 | after a release every requester the releaser has heard of is queued, and LN is exact for everyone who is not asking |
| SuzukiKasami.ArriveKeeps | lib/cluster_loop.cpp:242-247 | the arrival of the token keeps the invariant |
| SuzukiKasami.MintKeeps | lib/cluster_loop.cpp:265-269 | minting a token nobody has asked for keeps the invariant |
| Refinement.AskRefines | lib/cluster_loop.cpp:427-444 | requestToken is one Ask of the algorithm, or nothing when a request is pending |
| Refinement.PassRefines | lib/cluster_loop.cpp:387-397 | unlock with release and sendToken is one Leave of the algorithm |
| Refinement.TakeRefines | lib/cluster_loop.cpp:236-247 | accepting a token is one Arrive of the algorithm |
| Refinement.HearRefines | lib/cluster_loop.cpp:304-314 | noting a request number is one Hear of the algorithm |
| Refinement.MintRefines | lib/cluster_loop.cpp:265-269 | creating an owned record is one Mint of the algorithm |
| Refinement.Welcome | lib/cluster_loop.cpp:229-240 | a token in flight finds a record that does not own it, at a node that is up and has the request pending |
| Events.OnRequest | lib/cluster_loop.cpp:297-320 | any RequestToken, at an idle owner or elsewhere, keeps the token invariant and moves the token only onwards in its queue |
| Events.AnswerAtOnce | lib/cluster_loop.cpp:316-319 | the direct send of an idle owner is entering, hearing and leaving in one go, with an empty queue before and after |
| Events.OnUp | lib/cluster_loop.cpp:189-217 | the last handshake grants and sends out the waiting requests, keeping the token invariant |
| Monitors.OnSystem | lib/cluster_loop.cpp:242-284 | the system token is accepted, released at once and goes on to whoever waits |
| Monitors.OnLock | lib/cluster_loop.cpp:342-373 | requestLock at an informed node keeps the monitor's invariant and moves its token only onwards in its queue |
| Monitors.OnUnlock | lib/cluster_loop.cpp:375-398 | requestUnlock keeps the invariant and moves the token onwards, whether it stays or is sent |
| Monitors.OnUserRequest | lib/cluster_loop.cpp:297-320 | a RequestToken keeps the invariant and moves the token onwards, also when it is sent at once |
| Monitors.OnUserGive | lib/cluster_loop.cpp:220-295 | a GiveToken is accepted, the node gets in, and the properties it then has are the ones carried |
| Monitors.OnAdopt | lib/cluster_loop.cpp:252-273 | settling an entry on arrival of the system token mints the monitor or marks it as existing, and keeps its invariant |
| Monitors.OnDeclare | lib/cluster_loop.cpp:123-181 | declaring a monitor keeps its invariant, also when that mints it |
| Monitors.OnUserUp | lib/cluster_loop.cpp:189-217 | coming up grants an early lock only where the token is |
| Cluster.RunShape | lib/cluster_loop.cpp:9-19 | arrays and node numbers stay in range in every state of every run |
| Startup.EveryoneHeard | lib/cluster_loop.cpp:183-192 | n - 1 handshakes received mean that every node has started and is connected here |
| Startup.HandshakeKeeps | lib/cluster_loop.cpp:183-217 | a handshake keeps the barrier, and the last one finds everybody started |
| Startup.BarrierKept | lib/cluster_loop.cpp:75-99 | every step keeps the startup barrier |
| Tokens.RegisteredAfter | lib/cluster_loop.cpp:157-181 | a step registers exactly the monitors it mints, and none is ever forgotten |
| Tokens.SystemKept | lib/cluster_loop.cpp:249-287 | every step keeps the system token's invariant and moves it onwards in its queue |
| Tokens.SystemGiveViews | lib/cluster_loop.cpp:249-287 | what the arrival of the system token does to the records, token by token, and to the monitor set |
| Coupling.CoupledKept | lib/cluster_loop.cpp:250-271 | wherever the system token is, its monitor set stays complete |
| Users.FlagsAgree | lib/cluster_loop.cpp:144-181 | a record handleNew makes is marked as created only if the monitor exists or comes to exist by it, and as owned only if it did not; Creation.NewHere says when it is |
| Creation.NewHere | lib/cluster_loop.cpp:157-181 | at a started node with no record of a monitor the new record is blank, is owned if and only if the monitor is not on the node's list and the node owns the system token, and is created if and only if it is on the list or owned; then nothing is sent and nothing asked for, and otherwise the system token is asked for with the next number, once of every peer, unless it has been asked for |
| Creation.NewEarly | lib/cluster_loop.cpp:144-155 | before the node has started the new record is created and owned at node 0 and neither elsewhere, where the system token goes into m_pendingRequests; nothing is sent |
| Creation.NewAgain | lib/cluster_loop.cpp:125-142 | a monitor that was declared stays as it is, and of one known by a record only the record stays as it is; nothing is sent or asked for |
| Creation.AloneOrNot | lib/cluster_loop.cpp:9-19 | a cluster of one is up from the start with the system token, and a monitor that it declares can be locked at once; a node of a larger cluster has not started |
| Users.StepIs | lib/cluster_loop.cpp:21-48 | every handled event of the cluster is, for each monitor, one of the nine events of that monitor's own world, or nothing, and leads to the world after that event |
| Users.UserKept | lib/cluster_loop.cpp:21-48 | under H every handled event keeps each monitor's invariant and moves its token only onwards in its queue |
| Exclusion.SingleKept | lib/cluster_loop.cpp:21-48 | no handled event makes a second token, whoever locks what |
| Runs.RunSafe | lib/cluster_loop.cpp:21-48 | the safety invariant holds in every state of every run |
| Runs.RunSound | lib/cluster_loop.cpp:21-48 | the full invariant holds in every state of every run under H |
| Theorems.AtMostOneToken | lib/cluster_loop.cpp:220-320 | nodes with owned or locked set plus GiveToken packets in flight number at most one, and none before minting, without H |
| Theorems.MutualExclusion | lib/cluster_loop.cpp:469-479 | no two nodes are ever locked on the same monitor, without H |
| Theorems.StartupBarrier | lib/cluster_loop.cpp:183-225 | once some node takes the cluster for started or a protocol packet is in flight, every node has started with all n - 1 peers, so no early return drops a message |
| Theorems.MonitorSets | lib/token.cpp:275-283 | every copy of the monitor set lists existing monitors only, and the one with the system token lists them all |
| Theorems.MintsOnlyNew | lib/cluster_loop.cpp:157-176 | a step mints only what does not exist, and what exists stays |
| Theorems.StaysRegistered | lib/token.cpp:275-278 | the set of existing monitors only grows along a run |
| Theorems.MintedAtMostOnce | lib/cluster_loop.cpp:250-271 | no run mints a monitor twice |
| Theorems.ExactlyOneToken | lib/cluster_loop.cpp:229-271 | under H a minted monitor has exactly one owner or one GiveToken in flight, and locked implies owned |
| Theorems.QueueValid | lib/token.cpp:33-56 | under H, beyond OrderlyAlways: an idle owner knows of no unserved request |
| Theorems.NoLostRequest | lib/cluster_loop.cpp:297-320 | under H an unserved request is queued, or in flight to where the token is or goes, or known there while the token is in use or awaited |
| Theorems.QuietMeansServed | lib/cluster_loop.cpp:297-320 | with nothing about the token in flight and nobody inside, every request made has been served and none is pending |
| Values.Granting | lib/cluster_loop.cpp:469-491 | whoever is inside after an event and was not before is the node of that event, is locking in it or had asked, and the grant is used up |
| Values.Staying | lib/cluster_loop.cpp:375-398 | whoever is inside stays inside with its properties unchanged under every event but its own unlock and writes, without H |
| Values.ValuedAfter | lib/cluster_loop.cpp:493-515 | the value travels with the token: wherever the token is after an event, it has the value it had before, or the one just written or minted, without H |
| OneLock.LockAfter | lib/cluster_loop.cpp:446-491 | each event of a monitor is one step of its shared lock |
| SharedMonitor.TokenHasLastWrite | lib/cluster_loop.cpp:493-515 | in every run, with or without H, whoever has a monitor's token, and every packet that carries it, has the value last written inside |
| SharedMonitor.LockSteps | lib/cluster_loop.cpp:446-515 | each handled event is one labelled step of the shared lock: only a write inside changes the value, only its holder's unlock frees it, only minting creates it, and it is granted only to a node that is locking or had asked, whose request that uses up |
| SharedMonitor.LockHasLastWrite | lib/cluster_loop.cpp:493-515 | under H the shared lock has the value last written inside the monitor anywhere, or the one it was minted with |
| SharedMonitor.InsideSeesLastWrite | lib/monitor.cpp:194-234 | in every run, with or without H, a node inside the monitor sees the value last written inside it by any node |
| SharedMonitor.GrantSeesLastUnlock | lib/monitor.cpp:194-205 | in every run, with or without H, the properties at the next grant, at whichever node, equal those left by the last unlock |
| SharedMonitor.RunLockSteps | lib/cluster_loop.cpp:21-48 | a run projects to a run of the single shared lock |
| Brackets.ReleasedFits | lib/token.cpp:33-56 | after a release the token is orderly at home, and on its way to the head of the queue, who still wants it and waits |
| Brackets.WUnlock | lib/cluster_loop.cpp:375-398 | requestUnlock keeps numbers and queue in order without H, also when ownership was cleared |
| Brackets.WRequest | lib/cluster_loop.cpp:297-320 | a RequestToken keeps them in order without H |
| Brackets.WGive | lib/cluster_loop.cpp:220-295 | a GiveToken keeps them in order without H and is always accepted |
| Brackets.WAdopt | lib/cluster_loop.cpp:252-273 | settling an entry keeps them in order without H, also when it clears ownership |
| Attention.MailAfter | lib/cluster_loop.cpp:427-444 | every event keeps that a request not yet heard somewhere is on its way there, and that none is on its way twice or to where it is known |
| Attention.AttentiveAfter | lib/cluster_loop.cpp:252-271 | if no idle owner knew of an unserved request before an event, none does after it unless the event creates the monitor carelessly, and then one does |
| Always.WKept | lib/cluster_loop.cpp:21-48 | every handled event keeps numbers and queue in order, without H |
| Always.NumbersAlways | lib/token.cpp:23-31 | in every run RN_j[i] and the numbers in flight from i are at most RN_i[i] |
| Always.OrderlyAlways | lib/token.cpp:33-56 | in every run, wherever the token is, LN[i] <= RN_i[i] <= LN[i] + 1 and the queue has no duplicates, at most n - 1 members, not the holder or addressee, and only nodes with an open request; idle means empty, and the addressee still wants the token |
| Always.WantsIsAhead | lib/cluster_loop.cpp:316-316 | so the test rn == ln + 1 holds if and only if rn > ln |
| Always.NoTokenDiscarded | lib/cluster_loop.cpp:226-240 | in every run the branches of packetGiveToken that drop a token are never taken |
| Always.LostExactly | lib/cluster_loop.cpp:297-320 | in every state of every run no request is lost if and only if no idle owner knows of an unserved one |
| Always.LosesNoneExactly | lib/cluster_loop.cpp:256-268 | a run loses no request if and only if none of its steps creates a monitor at a node that does not wait for it and has heard a request for it, without H |
| Always.InformedNeverCareless | lib/cluster_loop.cpp:342-373 | under H no step does |
| Conservation.StepConserves | lib/cluster_loop.cpp:252-260 | a step loses the token if and only if it clears the owned flag of an uncreated, owned, listed entry |
| Conservation.ConservedExactly | lib/cluster_loop.cpp:252-260 | a run conserves the token in every state if and only if no step takes that branch, without H |
| Conservation.InformedNeverClears | lib/cluster_loop.cpp:342-373 | under H that branch is never taken |
| Bypass.OnwardAfter | lib/token.cpp:36-53 | an event leaves the token where it is with its queue grown at the back at most, or sends it to the first in the queue, if and only if it does not clear the owned flag |
| Bypass.RunOnward | lib/token.cpp:36-53 | along a run the queue of the system token, and under H of every token, only grows at the back and is consumed from the front |
| Bypass.RunOnwardExactly | lib/token.cpp:36-53 | in any run, without H, a step moves a user monitor's token onwards in its queue if and only if it is not the step that loses it |
| Bypass.BoundedBypass | lib/token.cpp:37-55 | a node at index d of the queue comes one place nearer with each hand-off and is never moved back, so at most d others are served first; without H up to the step that loses the token |
| Bypass.QueueIsShort | lib/token.cpp:37-55 | in every run that index is at most n - 2 |
| Pending.PendingAfter | lib/cluster_loop.cpp:252-271 | if m_pendingRequests stood for the open requests before an event, it does after it, unless and only unless the event creates the monitor at a node that has it there |
| Pending.PendingExactly | lib/cluster_loop.cpp:265-268 | over a run, without H, m_pendingRequests stands for the open requests in every state if and only if no step creates the monitor at a node that has it there |
| Pending.StrandedFrom | lib/cluster_loop.cpp:265-268 | from such a step on, in every later state, that node's entry is for a request the token counts as served, unless the token is at the node itself |
| Pending.StrandedStays | lib/cluster_loop.cpp:427-444 | such a node keeps its entry and never makes another request, and once it does not have the token it never has it again, is never inside, and whoever waits there goes on waiting |
| Pending.InformedNeverStrands | lib/cluster_loop.cpp:342-373 | under H no step creates a monitor where it is in m_pendingRequests |
| Pending.QuietMeansServedAlways | lib/cluster_loop.cpp:252-271 | without H: when no step cleared the owned flag, and none created the monitor carelessly or where it was pending, then with nothing on its way and nobody inside, an existing monitor's token is idle at some node and has served everybody, and nobody is pending |
| Waiting.EffectAttends | lib/cluster_loop.cpp:342-373 | if whoever waits has been attended to before an event, it is after it, unless and only unless the event overlooks it |
| Waiting.WaitingExactly | lib/cluster_loop.cpp:194-216 | over a run, with or without H: whoever waits has a record, has declared the monitor and is not inside, and at a node that is up does not have the token and has asked for it or has an unsettled record, in every state, if and only if no node comes up with somebody waiting for a monitor that it knows to exist, does not have and has not asked for |
| Waiting.RunSettles | lib/cluster_loop.cpp:144-180 | in every state of every run a node with an unsettled record has the system token in m_pendingRequests |
| Waiting.LockIsNoted | lib/cluster_loop.cpp:342-373 | a lock at a node that has declared the monitor and is not inside is granted at once if and only if the node is up and has the token; otherwise the node waits, and if it is up the token has been asked for |
| Waiting.WaitsOn | lib/cluster_loop.cpp:469-491 | along a run that overlooks nobody whoever waits goes on waiting until it is inside |
| Waiting.QuietMeansGranted | lib/cluster_loop.cpp:469-491 | with nothing on its way and nobody inside, nobody at a node that is up waits for an existing monitor, if the run took none of the four steps that go wrong |
| Waiting.EveryLockIsGranted | lib/cluster_loop.cpp:342-373 | under the same conditions every lock handled earlier in the run has been granted since |
| Witness.TokenLost | lib/cluster_loop.cpp:256-260 | three nodes, in-order channels: a reachable state in which a monitor exists and its token is nowhere |
| Witness.LeftWaiting | lib/cluster_loop.cpp:427-444 | three nodes, in-order channels: a reachable state with nothing on its way and nobody inside, in which a node waits for a monitor and has it in m_pendingRequests for a request that was served before |
| Witness.RequestLost | lib/cluster_loop.cpp:265-268 | three nodes, in-order channels: a reachable state in which a request has been heard, is unserved, and nobody is going to serve it |
| Witness.NeverGranted | lib/cluster_loop.cpp:364-372 | three nodes, in-order channels, under H: a reachable state with all nodes up, nothing on its way and nobody inside, in which a node waits for a monitor whose token is elsewhere and which it has not asked for |
| TokenMap.PackRoundTrip | lib/token.cpp:141-171 | LN, Q, the monitor set and the properties are read back from the map as they were put in |
| TokenMap.TokenInUnpacked | lib/token.cpp:103-124 | what a node makes of a map that carries a token for n nodes is that token, whatever it knew before |
| TokenMap.LoadUnpacked | lib/token.cpp:103-139 | loading any map replaces LN, Q and the monitor set by what the map has, each left alone when it has none, and leaves RN, created, owned and locked alone |
| TokenMap.LoadPropsUnpacked | lib/monitor.cpp:236-292 | the reserved entries do not disturb the monitor's own properties |
| Handlers.RequestMeans | lib/cluster_loop.cpp:297-320 | packetRequestToken in the steps of the source, and as the handler of module Node |
| Handlers.NewMeans | lib/cluster_loop.cpp:123-181 | handleNew branch by branch as in the source, without reference to the flags of the specification, computes the handler of module Node |
| Handlers.AdoptRound | lib/cluster_loop.cpp:252-273 | one round of the loop over all records, in any order |
| Handlers.SystemMeans | lib/cluster_loop.cpp:249-287 | all rounds and the release together are the handler of module Node |
| Handlers.UpMeans | lib/cluster_loop.cpp:196-216 | the two loops of packetClusterHandshake together are the handler of module Node |
| Loop.ClusterLoop.constructor | lib/cluster_loop.cpp:9-19 | a cluster of one is up at once and owns the system token |
| Loop.ClusterLoop.Broadcast | lib/cluster_loop.cpp:411-420 | one packet to each peer, each once |
| Loop.ClusterLoop.RequestToken | lib/cluster_loop.cpp:427-444 | the object's requestToken computes the specification and sends exactly its packets |
| Loop.ClusterLoop.Grant | lib/cluster_loop.cpp:446-491 | grant locks the record and drops the pending grant exactly when all three lookups succeed |
| Loop.ClusterLoop.SendToken | lib/cluster_loop.cpp:493-515 | the token is saved with its properties, given up, and sent once; the map sent reads back as that token |
| Loop.ClusterLoop.RequestLock | lib/cluster_loop.cpp:342-373 | the object's requestLock computes the specification of the event |
| Loop.ClusterLoop.RequestUnlock | lib/cluster_loop.cpp:375-398 | the object's requestUnlock computes the specification of the event |
| Loop.ClusterLoop.HandleConnect | lib/cluster_loop.cpp:75-99 | the object's handleConnect computes the specification of the event |
| Loop.ClusterLoop.HandleNew | lib/cluster_loop.cpp:123-181 | the object's handleNew computes the specification of the event |
| Loop.ClusterLoop.PacketClusterHandshake | lib/cluster_loop.cpp:183-218 | the object's packetClusterHandshake, with its two loops, computes the specification of the event |
| Loop.ClusterLoop.PacketRequestToken | lib/cluster_loop.cpp:297-320 | the object's packetRequestToken computes the specification of the event |
| Loop.ClusterLoop.AdoptRecords | lib/cluster_loop.cpp:252-273 | the loop over all records, with its requests sent once each |
| Loop.ClusterLoop.PacketGiveToken | lib/cluster_loop.cpp:220-295 | the object's packetGiveToken computes the specification of the event, for any property map whose reserved entries have their types |
| Loop.ClusterLoop.Register | lib/cluster_loop.cpp:157-180 | the part of handleNew that looks at the system token, branch by branch on the object: listed, not listed but the system token is here, and neither |
| Loop.ClusterLoop.Run | lib/cluster_loop.cpp:21-48 | for any sequence of events the object goes through the states that the handlers of module Node give, one after another, and queues exactly their packets, event by event |
| Embedding.LastHandshake | lib/cluster_loop.cpp:183-194 | in every run the last handshake finds its node started |
| Embedding.NodeGoesThrough | lib/cluster_loop.cpp:21-48 | at every point of every run of a cluster each node is what its own events, one after another, make of a new node, and each of them meets what the object's handler asks for |
| Embedding.RunTidy | lib/cluster_loop.cpp:493-512 | in every run the system token carries no properties and no other token carries a monitor set |
| Embedding.EveryNodeGoesThrough | lib/cluster_loop.cpp:21-48 | every run of a cluster is one of its objects: for each node there are events, with property maps that read back as the tokens under way, that fit the handlers and lead to the node's state |
| Codec.RoundTrip64 | lib/marshaller.cpp:409-414 | eight bytes come back as the word they were made of, whatever follows |
| Codec.DigitAt | lib/marshaller.cpp:449-464 | of the number that bytes say in base 256, the byte at position j is the digit with as many below it as bytes behind it: the most significant byte comes first |
| Codec.NumberIsOnce | lib/marshaller.cpp:449-464 | byte strings of one length that say the same number in base 256, the first byte counting most, are equal: saying which number the bytes say says what each of them is |
| Codec.Be64Says | lib/marshaller.cpp:409-414 | eight bytes that say the word in base 256, the first byte counting most |
| Codec.Word64Says | lib/marshaller.cpp:552-560 | the word that is read is the number that the first eight bytes say |
| Marshaller.MemoryIsLittle | lib/marshaller.cpp:449-464 | the machine's memory has the least significant byte first |
| Codec.RoundTripBlob | lib/marshaller.cpp:437-447 | a length-prefixed string comes back, whatever follows |
| Codec.RoundTripAll | lib/marshaller.cpp:234-316 | a counted decoding loop undoes the encoding loop and stops right behind it |
| Codec.ValueRoundTrip | lib/marshaller.cpp:99-316 | every value of every built-in type but the doubles comes back under its tag |
| Codec.MapRoundTrip | lib/marshaller.cpp:318-358 | a property map comes back whole in whatever order it was walked, and exactly its bytes are consumed |
| Marshaller.Memory64IsBig | lib/marshaller.cpp:454-464 | the bytes of hostToNetwork's result, in little-endian memory, say the word in base 256, the first byte counting most: eight of them, so swapping the halves is necessary |
| Marshaller.Load64IsBig | lib/marshaller.cpp:601-611 | networkToHost makes of eight bytes in memory the number that they say in base 256, the first byte counting most |
| Marshaller.MarshallHelper.WriteU64 | lib/marshaller.cpp:409-414 | appends eight bytes that say the word in base 256, the first byte counting most |
| Marshaller.MarshallHelper.WriteBlob | lib/marshaller.cpp:437-447 | appends the size and the bytes |
| Marshaller.UnmarshallHelper.ReadU32 | lib/marshaller.cpp:532-540 | reads the number that the next four bytes say in base 256 and moves past them, or fails without moving when fewer are left |
| Marshaller.UnmarshallHelper.ReadBlob | lib/marshaller.cpp:572-594 | reads a length-prefixed string, or fails when it is cut short |
| Marshaller.MarshallStrings | lib/marshaller.cpp:63-74 | the loop of the Vector<String> encoder produces the list format |
| Marshaller.UnmarshallStrings | lib/marshaller.cpp:74-91 | the loop of its decoder accepts it |
| Marshaller.MarshallValue | lib/marshaller.cpp:99-114 | the encoder of the value's type |
| Marshaller.UnmarshallValue | lib/marshaller.cpp:116-131 | the decoder its tag selects |
| Marshaller.MarshallMap | lib/marshaller.cpp:318-331 | the entries of the map in some order, each once |
| Marshaller.UnmarshallMap | lib/marshaller.cpp:333-358 | the map that the decoder of the format reads, the first entry of an id winning |
| Handoff.TokenRoundTrip | lib/cluster_loop.cpp:493-512 | a token packed, marshalled, unmarshalled and read again is the same token |
| Handoff.Ship | lib/cluster_loop.cpp:493-512 | the bytes that saving and marshalling a record produce carry its LN, Q and monitor set |
| Handoff.Carry | lib/token.cpp:103-171 | on the records: LN elementwise, Q as a sequence and the monitor set arrive, and the receiver's RN, created, owned and locked stay |
| Layout.NumberSays | lib/marshaller.cpp:99-114 | a single number is as many bytes as its type is wide, and they say it in base 256 |
| Layout.NumbersSay | lib/marshaller.cpp:191-235 | a vector is its count in four bytes and then its elements, the i-th at 4 + i times the width, each said in base 256 |
| Layout.StringsSay | lib/marshaller.cpp:63-74 | a Vector<String> is its count and then each string behind its size, the i-th behind the i strings before it |
| Layout.TagSays | lib/marshaller.cpp:99-240 | every tag made of $ or #, u or s, and 8, 16, 32 or 64 selects a decoder, and it is for exactly the values of that width, one for $ and a vector for # |
| Layout.TagSaysFloat | lib/marshaller.cpp:63-232 | $float, #float and Vector<String> select the decoders of the one float, of the vector of floats and of the vector of strings |
| Layout.PropertySays | lib/marshaller.cpp:324-328 | id, tag and value in this order, each behind its size |
| Layout.MapSays | lib/marshaller.cpp:318-331 | the count of entries and then the entries in the order of the walk, each once |
| Layout.FirstWins | lib/marshaller.cpp:352-352 | of the entries with one id that are read the map has the first |
| Layout.SavingKeeps | lib/token.cpp:164-170 | saving a token or a monitor's variables adds exactly the reserved names or the variables' names to a map, and replaces nothing in it |
| Layout.LoadingMeans | lib/monitor.cpp:236-292 | a bound variable takes the value that came, if one came, and nothing new is bound |
| Layout.TokenSays | lib/token.cpp:141-171 | LN is under ___token_ln and Q under ___token_queue, both tagged #u32, and the monitor set under monitors as Vector<String> |
| Layout.PacketSays | lib/packet.cpp:24-34 | two bytes of type (lib/include/tdmonitor/packet.h:27-35), four bytes of payload size and then the payload, field by field, whose size they are |
| Layout.HeaderRead | lib/packet.cpp:24-34 | what is parsed as type and payload size are the numbers that the first two bytes and the next four say |
| Layout.UnknownType | lib/packet.cpp:53-80 | a packet with any other type number is not decoded |
| Layout.MessageSays | lib/cluster_loop.cpp:411-444 | which packet a message becomes, with which numbers, under which token's name |
| Packets.Encode | lib/packet.cpp:24-34 | type, size and payload, with the size filled in at the end |
| Packets.FactoryInverts | lib/packet.cpp:53-80 | a packet is decoded from the receive buffer whatever stale bytes lie behind its payload |
| Packets.SplitMore | lib/tcp_manager.cpp:522-584 | splitting a stream into frames can stop anywhere and go on from the leftover |
| Packets.StreamSplits | lib/packet.cpp:24-34 | a stream of packets splits into exactly those packets, with nothing left over |
| Packets.PrefixSplits | lib/tcp_manager.cpp:522-584 | a prefix of the stream splits into a prefix of the packets |
| Rounds.WriteStops | lib/tcp_manager.cpp:586-606 | of any sizes and outcomes of writes: writing stops with 0 if and only if everything is written, otherwise with the first failure among the calls made, and otherwise no call failed and it does not stop |
| Rounds.WriteMoves | lib/tcp_manager.cpp:593-599 | no more is written than the calls allow, and at least of the front buffer all that they allow |
| Rounds.WriteDrains | lib/tcp_manager.cpp:601-606 | with a turn for every buffer, and each taken whole, everything is written and writing stops with 0 |
| Rounds.ReadLaws | lib/tcp_manager.cpp:522-584 | of any sizes and outcomes of reads: reading stops with the failure of the last call, or with EPIPE when the other end has closed and the last call gave less than it was asked for, or with EYAICINVPACKET at a header that announces too much, and goes on only if no call failed and every turn gave a frame or the open connection had nothing more |
| Rounds.ReadMoves | lib/tcp_manager.cpp:530-541 | a read that may move n bytes consumes at least n, or what the header or payload still wants, or what is on the wire, whichever is least |
| Receive.TcpReceiveBuffer.ReadHeader | lib/tcp_manager.cpp:528-558 | the header part of readEvent for one outcome: as many bytes come in as the read gives, up to the six wanted, and they are parsed once they are there; a failure stops, and so does a short read while the other end is closing |
| Receive.TcpReceiveBuffer.ReadPayload | lib/tcp_manager.cpp:563-577 | the payload part for one outcome, in the same way: the buffer never exceeds the frame, and a complete frame is called back |
| Receive.TcpReceiveBuffer.ReadEvent | lib/tcp_manager.cpp:522-584 | for any sizes and outcomes of reads the bytes consumed and the stop are those of Rounds.ReadLaws, the callbacks are exactly the complete frames of the bytes consumed, and the buffer holds the leftover with its header parsed |
| Receive.TcpReceiveBuffer.NothingLeft | lib/tcp_manager.cpp:575-577 | between two calls the callbacks are all frames of the bytes read, and no complete frame is held back in the buffer |
| Receive.TcpReceiveBuffer.Deliver | lib/tcp_manager.cpp:575-577 | the callback is about the frame at the front, and the buffer is empty again |
| Clients.Client.AttachSendBuffer | lib/tcp_manager.cpp:139-143 | the bytes go to the end of what is unsent |
| Clients.Client.NextSendBuffer | lib/tcp_manager.cpp:92-115 | a buffer with bytes left exactly when there are unsent bytes and writing has not failed |
| Clients.Client.WriteFrom | lib/tcp_manager.cpp:593-599 | write(2) on the buffer at hand: exactly the bytes that it moves go from the front of what is unsent onto the wire, and a failure is reported |
| Clients.Client.Enqueue | lib/tcp_manager.cpp:309-317 | the encoded packet goes to the end of what is unsent, so that what was written and what is unsent stay the packets sent |
| Connections.TcpManager.SendTo | lib/tcp_manager.cpp:297-317 | the packet is queued and the loop is told, also for a client that was removed |
| Connections.TcpManager.StopReading | lib/tcp_manager.cpp:681-692 | one TCSDisconnecting callback; the client dies, onto the erase list once, unless it has unsent bytes and can write them, and then it is watched for writing only |
| Connections.TcpManager.StopWriting | lib/tcp_manager.cpp:694-720 | the client dies if its read side has failed; otherwise it is watched for reading only, and after a disconnect that was not forced it is in TCSWritingClosed with EYAICDISCONNECT unless writing failed otherwise |
| Connections.TcpManager.WriteEvent | lib/tcp_manager.cpp:586-606 | exactly the bytes of Rounds.WriteStops and WriteMoves go from the front of what is unsent onto the wire, in order, and nothing else; without a stop nothing else has changed, and with one writing stops as stopWriting says, with 0 when the queue is drained and with the failure otherwise |
| Connections.TcpManager.ReadEvent | lib/tcp_manager.cpp:522-584 | exactly the bytes of Rounds.ReadLaws come off the wire, in any portions of reads, and their frames are called back; without a stop nothing else has changed, and with one reading stops as stopReading says: on a failure, at the end of the stream (also after writing was closed here), and on a packet that is too long |
| Connections.TcpManager.ConnectEvent | lib/tcp_manager.cpp:608-647 | the connection comes up with one TCSConnected callback; or the client is buried once with the error kept, and either the same address is planned with one attempt less, without a callback, or TCSFailedToEstablish is reported; nothing at all for a dead client or one that is not connecting |
| Connections.TcpManager.Settled | lib/tcp_manager.cpp:349-416 | an event about one client leaves the books of every other client in order |
| Connections.TcpManager.ClientEvent | lib/tcp_manager.cpp:380-391 | for any client and any state: nothing for a dead one; connecting; or writing as above, and then reading as above unless writing has ended it, each only while the client is in a state to do so and wants it; every client's invariant is kept |
| Connections.TcpManager.ClientMessage | lib/tcp_manager.cpp:488-516 | a forced disconnect buries the client once, another one moves TCSConnected to TCSDisconnecting, and the client is watched for exactly the directions that have not failed |
| Connections.TcpManager.DisconnectEveryone | lib/tcp_manager.cpp:475-487 | forced, every client is dead and on the erase list once; otherwise those in TCSConnected move to TCSDisconnecting and the rest stay as they are |
| Connections.TcpManager.PipeNotification | lib/tcp_manager.cpp:462-520 | the next message is taken and obeyed, each kind as above; messages for removed clients change nothing, and only TMMTTerminateLoop stops the loop |
| Connections.TcpManager.NewConnection | lib/tcp_manager.cpp:438-460 | a new client with parts of its own, watched for reading; a connection that the pool refuses only uses up a number |
| Connections.TcpManager.CreateConnection | lib/tcp_manager.cpp:649-679 | a new client with parts of its own, not up yet, watched for both directions, with its attempts noted; nothing when a system call fails |
| Connections.TcpManager.RetryPlanned | lib/tcp_manager.cpp:391-397 | every planned connection is tried once, in order, each with a new client that has its address and its attempts, unless a system call fails; the plan is empty afterwards |
| Connections.TcpManager.EraseDead | lib/tcp_manager.cpp:400-414 | exactly the dead clients are removed, in the order of the erase list, each with one TCSDisconnected callback: its error is the connect error if there is one, else the write error if there is one, else the read error |
| Connections.TcpManager.Handle | lib/tcp_manager.cpp:360-397 | one event, by what it is for: an accept makes a client or uses up a number, the pipe's next message is obeyed, a client's readiness does what ClientEvent says, and the timer tries every planned connection |
| Connections.TcpManager.RunLoop | lib/tcp_manager.cpp:349-416 | over any iterations of any events (accepts, connect results, reads, writes, messages, timers, sends and disconnects from elsewhere, bytes coming and going at the other ends): every client is reported as disconnected exactly once, last of all, if it was removed, and not at all otherwise, and before that at most once as connected or failed and once as disconnecting; what was written to it and is unsent are the packets sent to it, its callbacks are the frames of what was read; a half-closed client has something to write and is watched for writing; whoever has something to write is watched for writing or the loop is yet to be told; after an iteration nobody is dead; every event of the iterations run is handled, once and in order, save that a loop told to stop does not look into the pipe again; packets are queued and bytes come and go at the other ends exactly as those events say; every message to the loop is read once and in order or is still in the pipe, and the loop stops before the end only after reading TMMTTerminateLoop |
| Channel.Channel.Run | lib/tcp_manager.cpp:349-416 | two managers, each running its loop over any events, joined by a connection that moves any number of bytes either way at any time: at both ends what was written and is unsent are the packets sent, and the callbacks are the frames of what arrived |
| Channel.Channel.DeliveredInOrder | lib/tcp_manager.cpp:522-606 | whatever both managers and the network have done, in both directions the i-th callback at one end decodes to the i-th packet sent at the other: in order, none twice, none altered |
| Channel.Channel.DrainedMeansAll | lib/tcp_manager.cpp:522-606 | once a direction is drained without a stop every packet sent that way has been delivered |
| Messages.MessageRoundTrip | lib/packets/core.cpp:66-151 | a protocol message put into a packet is the message the peer's loop reads out of its receive buffer |

## Left out

- Signals and condition variables: handled at lib/cluster_loop.cpp:322-340 and 400-409, they do not touch the token state.
- Disconnects at cluster level and node failure: handleDisconnect only logs.
- Liveness of takeGrant and wake-ups: nothing is claimed about threads, mutexes or lost notifications.
- The double and #double encodings: the writer pairs a float with a 64-bit word (lib/marshaller.cpp:430-435), so no round trip is intended by the code as written; values of these types are not part of `Properties.Value`.
- User-registered marshaller types: their codecs are arbitrary code.
- Signed integers and floats are carried as the bit patterns of unsigned words of the same size.
- Marshaller.UnmarshallHelper.ReadBlob: does not model the 32-bit wrap-around of index + length for a length field near 2^32, because past it the source reads outside its buffer.
- Marshaller.UnmarshallValue: does not model what the source goes on with after a failed read, because the value it then uses is indeterminate; the model stops with None.
- Marshaller.UnmarshallStrings: stops with None on input that is cut short, where the source goes on with empty strings for a count that it has read from the input.
- Marshaller.UnmarshallMap: stops with None at the first read that fails, where the source goes on with indeterminate values.
- TokenRecord.TokenPrivateData.LoadProperties: asks that reserved entries that are there have the types they are cast to, because the source casts without looking and what a wrong cast does is undefined.
- Loop.ClusterLoop.PacketGiveToken: takes the property map already unmarshalled, asks the same of its types, and that a queue that it carries names nodes of the cluster, because the source dereferences a missing connection when another number reaches the head of the queue.
- Loop.ClusterLoop.PacketClusterHandshake: asks that the node has started by the time the last handshake arrives, because the source then dereferences the record of a pending request, which may be missing; Embedding.LastHandshake proves it of every run.
- SystemToken is TokenPrivateData with one more field rather than a subclass of it.
- In handleConnect and at the end of the system token's loop the model may update fields in another order than the source within one handler; no other code can see the difference.
- Sockets, selectors, listening and address parsing: a read or write moves any number of bytes, would block, or fails, as an explicit plan says, and an accept, a connect or a pool's answer is a parameter of its event.
- Client numbers are unbounded; the source's u32 counter wraps around after 2^32 connections.
- A send from another thread in the middle of one handler of the loop: the model puts it right before or right after.
- A connection attempt whose client is disconnected by force before it comes up: its entry stays in the map of connections in progress, in the model as in the source.
- Events, the event queue, logging, memory ownership, the property overloads of Monitor and the producer-consumer example.
