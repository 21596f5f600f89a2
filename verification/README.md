# Falcon, RDMA and fabric models, verified

This project models the core of isekai, a simulator of RDMA over the Falcon transport:
the Falcon transaction state machines, the RDMA work scheduler with its credits, token
bucket and completions, the receiving side with its path to host memory, the switch's
memory management unit and ports, the IPv6 routing trie, the host's network channel and
the event loop. Everything below is a statement about all inputs or about all runs.

Each component is a Dafny module. State that the source updates in place is a class
whose methods are proved to compute a function of the old state (`View()`); the
functions are then composed into state machines whose steps cover every interleaving,
and the main results are invariants and theorems about whole runs of them. A failed
`CHECK`, a `LOG(FATAL)` or undefined behaviour (an empty deque popped, a destroyed
object used) is the value `None`, or `ok == false` of a method, and the theorems show
when it is reached.

| file | what it models |
|---|---|
| `Common.dfy` | options and sequences shared by the modules |
| `FalconTransaction.dfy`, `FalconProtocol.dfy` | transaction states of one host; two hosts over a network |
| `FalconLife.dfy`, `FalconRequests.dfy`, `FalconTarget.dfy` | the chains of stages behind the CHECKs; what becomes of each request; latencies at the target |
| `Sgl.dfy` | cutting scatter-gather lists and matching posted receives |
| `FalconCredits.dfy`, `TokenBucket.dfy` | credit costs and 32-bit books; the rate limiter |
| `Scheduler.dfy`, `WorkScheduler.dfy` | the work scheduler as a state machine, and as the object updated in place |
| `SchedulerBooks.dfy`, `SchedulerCredits.dfy`, `SchedulerLimits.dfy` | books kept modulo 2^32 and exactly, per-QP limits |
| `SchedulerTurns.dfy`, `SchedulerPacing.dfy` | how long a turn lasts; how far apart sends are, and how many bytes go out |
| `SchedulerFlow.dfy` | that work goes out once and in order, xoffs are minded, and the scheduler sleeps only for a reason |
| `BoundedWaiting.dfy`, `SchedulerWork.dfy` | how long a listed QP waits; that no QP with work is forgotten |
| `SchedulerExamples.dfy` | runs from boot in which the scheduler goes wrong |
| `Completion.dfy`, `CompletionCounts.dfy` | RSNs, outstanding transactions and completion callbacks; how many transactions an operation takes |
| `AckOrdering.dfy`, `HostRxPath.dfy`, `AckRuns.dfy` | acceptance and RNR; RX buffer and PCIe queue; both with the clock |
| `MmuIngress.dfy`, `MmuPfc.dfy`, `MmuEgress.dfy` | switch memory accounting, and when it asks for pauses |
| `PortEvents.dfy`, `PortProgress.dfy` | output scheduling under PFC; which frame goes out when |
| `Ipv6Trie.dfy`, `ChannelManager.dfy`, `SimpleEnvironment.dfy` | routing table; network channel; event loop |

`dafny verify dfyconfig.toml` checks the whole project.

## What is false of the code, and exactly when

- A packet that straddles its minimal guarantee carries metadata that leaves out its
  guarantee share, because the share is computed after the counter has moved; its
  departure fails a `CHECK`. This is the only thing that stops ingress accounting
  (`MmuIngress.StopsOnStraddle`).
- The minimum credit checked before a request is sent does not cover every request: a
  read whose response, with its header, needs more receive units than the MTU, a list of
  many segments, or long inline data can overdraw the credit pool, which then wraps
  around (`FalconCredits.RequestFitsMinimum` says exactly which,
  `FalconCredits.DefaultUnitsFit` in numbers; `SchedulerExamples.FullReadWraps` is a run with units of 64 and 128 bytes,
  `SchedulerCredits.ChargeExact` the condition on one send).
- The outbound-read-depth branch pops the request deque also when a response was sent,
  and leaves the QP in the response deque whatever it has left to do. That is harmless
  exactly if the same QP heads the request lane and has another inbound read to answer
  (`Scheduler.DepthBranchExact`, `Scheduler.Keeps`). Otherwise the request lane disagrees
  with its set or an empty deque is popped (`SchedulerExamples.DepthBranchExample`), or
  the QP is served again without work (`SchedulerExamples.LastResponseExample`). Credit
  limits hold exactly if it can also pay for that next response
  (`SchedulerLimits.DepthBranchLimits`).
- A QP that is put back after its turn is added under the work type that is current when
  the event fires, not the one it left. If that is the other one, its work is forgotten:
  the scheduler can go idle with a QP that has work, credits and no xoff
  (`SchedulerExamples.LostWorkExample`). Nothing else loses work
  (`SchedulerWork.StepServes`), and only the QP's own credits, limits, xoffs, reads or
  other work bring it back (`SchedulerWork.LostStays`).
- Every read transaction raises the outbound read count, only the last one of an
  operation lowers it, so the count comes back to zero exactly if every read posted fits
  the MTU (`CompletionCounts.ReadCountDrains`).
- An X-on frame that finds an idle port with packets waiting cancels the event that
  would have resumed them (`PortEvents.Keeps`, `PortEvents.StrandedStays`).
- Removing the RDMA header in the wake-up path is done in unsigned arithmetic
  (`HostRxPath.SizesAgree`).
- The comment at isekai/host/rdma/rdma_falcon_model.cc:431-434 says that reads and
  writes are acknowledged in RSN order. The times are ordered. The ACKs are too unless a
  write is acknowledged on the spot at the very time for which an earlier ACK is
  scheduled, in an event scheduled before that (`AckRuns.RunsAckInOrder`). With the
  default latency of zero it is enough for that that a write is accepted at the same time
  as a read (`AckRuns.TieOvertakes`); with a positive latency the PCIe queue must have
  been full (`AckRuns.RoomMeansOrder`, `AckRuns.WriteOvertakesRead`). Requests processed at
  different times, as the receive pipeline does unless its cycle time is zero, are
  acknowledged in order with any latency as long as the queue has room
  (`AckRuns.PaceMeansOrder`).
- The overwrite flag of the routing table is ignored (`Ipv6Trie.IPTable.Insert`).
- `Run` and `RunUntil` do what their comments say except after a run that was stopped
  (`SimpleEnvironment.RunDoesNotResume`, `SimpleEnvironment.RunEndsAtDeadline`).

## Modelling decisions

- Times are integers in nanoseconds; sharing factors are real numbers, without the
  rounding of doubles. Random choices, callbacks, delays and the order of simultaneous
  things are left open, as parameters of the steps.
- Counters are unbounded except where their width matters: the global credit pool and
  the RX buffer are 32 bits wide and wrap around. RSNs, per-QP usage and sizes are taken
  to stay below their widths, and event ids below 2^64 - 1.
- Two hosts: the network delivers each packet once, after any delay; retransmission and
  the reliability window are the environment's business. A request or grant is open from
  its transmission until an ACK or the reply to it closes it, as a packet is outstanding
  in the sender's window; an ACK may arrive at any time while it is open.
- What a run may do is decided without looking at the state the checks look at: the
  environment of the two hosts knows which packets, ULP requests and completions are
  outstanding, the QP's knows which transactions Falcon has not answered, and so on.
- The scheduler's QPs are numbered by position. Operations are as the source demands
  them: inline data or a list but not both, inline data within the MTU, at most 32
  segments per packet, and an MTU of at least 16 bytes. Its theorems about the lanes are
  for runs in which no response takes the outbound-read-depth branch where that does
  harm, which are exactly the runs whose lanes stay in order (`Scheduler.LegalExact`);
  those about the global books, turns, pacing, flow and xoffs are for all runs. The lane a
  QP leaves is recorded in the event that is to put it back, for the statements only.
- Logs that the source does not have serve the statements: the frames a port has sent, the
  finished transactions with their names, the signals sent with their times, the items
  transmitted, the events executed.
- The stop sentinels of the event loop may be taken in either order at equal times, and
  so may signals of equal scheduled time: both priority queues leave ties open.
- In `SimpleEnvironment.Environment.Run` the number of rounds is a parameter, because
  callbacks can keep the original loop going for ever.

## Model

| member | source | states |
|---|---|---|
| `FalconTransaction.TransactionMetadata.UpdateState` | isekai/host/falcon/falcon_connection_state.cc:241-533 | For every packet type and stage: the CHECK passes exactly where the transition table has a move from the current state, and then state, timestamps, stage latencies and total latency are those of the table; nothing else changes |
| `FalconTransaction.TransactionMetadata.UpdatePullRequest` | isekai/host/falcon/falcon_connection_state.cc:251-297 | The stages of a pull request follow the table |
| `FalconTransaction.TransactionMetadata.UpdatePullData` | isekai/host/falcon/falcon_connection_state.cc:298-341 | The stages of pull data follow the table |
| `FalconTransaction.TransactionMetadata.UpdatePushRequest` | isekai/host/falcon/falcon_connection_state.cc:342-373 | The stages of a push request follow the table |
| `FalconTransaction.TransactionMetadata.UpdatePushGrant` | isekai/host/falcon/falcon_connection_state.cc:374-405 | The stages of a push grant follow the table |
| `FalconTransaction.TransactionMetadata.UpdatePushSolicitedData` | isekai/host/falcon/falcon_connection_state.cc:406-463 | The stages of solicited data follow the table |
| `FalconTransaction.TransactionMetadata.UpdatePushUnsolicitedData` | isekai/host/falcon/falcon_connection_state.cc:464-519 | The stages of unsolicited data follow the table |
| `FalconProtocol.ConnectionState.CreateOrUpdateTransactionFromUlp` | isekai/host/falcon/falcon_connection_state.cc:37-136 | A request from the ULP gets the next RSN and a new transaction of the right kind, split at the solicited-write threshold (`FalconRequests.RequestsServed` says what becomes of it in every run); a read response updates the target transaction; it fails where the source does, opcodes that are never given by a ULP included |
| `FalconProtocol.ConnectionState.CreateOrUpdateTransactionFromNetwork` | isekai/host/falcon/falcon_connection_state.cc:142-238 | An arriving request opens the target end of a transaction, any other packet updates an existing end; it fails where the source does |
| `FalconProtocol.LocalTransmit` | isekai/host/falcon/falcon_connection_state.cc:241-533 | Whatever packet is queued, the end that sends it is in the one state from which the CHECK allows NtwkTx, and afterwards the two ends agree again |
| `FalconProtocol.LocalDeliver` | isekai/host/falcon/falcon_connection_state.cc:142-238 | Whatever packet arrives, the end that receives it does not exist yet (requests) or is in the state its CHECK asks for, and afterwards the two ends agree again |
| `FalconProtocol.LocalAckOfData` | isekai/host/falcon/gen1/packet_reliability_manager.cc:1735-1778 | The ACK of a data packet finds the sender waiting for it; the target then forgets a pull, the initiator owes a completion for a push |
| `FalconProtocol.KeepsAckOfRequest` | isekai/host/falcon/gen1/packet_reliability_manager.cc:1669-1683 | An explicit ACK of a request or grant that has not been closed finds its transaction, and the two ends still agree |
| `FalconProtocol.ImplicitAckFinds` | isekai/host/falcon/gen1/packet_reliability_manager.cc:1089-1160 | A reply that arrives finds the transaction of the packet it acknowledges implicitly, whether an explicit ACK came before it or not |
| `FalconProtocol.Keeps` | isekai/host/falcon/falcon_connection_state.cc:241-533 | Every step of two hosts and the network between them preserves the agreement of both ends of every transaction, and no CHECK or lookup fails in it |
| `FalconProtocol.NoCheckFails` | isekai/host/falcon/falcon_connection_state.cc:142-533 | In every run of two hosts, with any delays, explicit and implicit ACKs of requests and grants in any order, early RNRs and RNR retries, no CHECK of UpdateState and no transaction lookup fails |
| `FalconProtocol.LatenciesTelescope` | isekai/host/falcon/falcon_connection_state.cc:244-248 | For every finished initiator transaction of every run the recorded stage latencies sum to the recorded total latency, with three stages for pulls and unsolicited pushes and five for solicited pushes |
| `FalconLife.ChecksExact` | isekai/host/falcon/falcon_connection_state.cc:241-533 | Each kind of transaction has one chain of stages at its initiator and one at its target. In any state whatever, the first stage always opens the chain, an ACK of a request or grant does nothing, an RNR takes a transaction back that is with the ULP or about to be, and any other stage passes its CHECK if and only if the transaction is exactly one stage before it; which of these start the clock, sample a latency and record the total is given by the place on the chain |
| `FalconLife.NoStageSkipped` | isekai/host/falcon/falcon_connection_state.cc:241-533 | Whatever updates are made in whatever order, a transaction that is at a stage of its chain has been at every stage before |
| `FalconLife.ArrivalExact` | isekai/host/falcon/falcon_connection_state.cc:142-238 | On any host whatever, a packet from the network is taken if and only if it is a request or its transaction is one stage before it; it moves no other transaction, and a transaction that is there keeps its record |
| `FalconRequests.SubmitOpens` | isekai/host/falcon/falcon_connection_state.cc:37-136 | A request opens the transaction with the next RSN, which did not exist, and queues a pull request for a read, a push request for a write of at least the threshold, and else the data |
| `FalconRequests.RequestsServed` | isekai/host/falcon/falcon_connection_state.cc:65-71 | In every run of two hosts the i-th request of a host has the transaction with RSN i: a pull if and only if it is a read, a solicited push if and only if it is a write of at least the threshold; it finishes at most once, after five stages if it is such a write and after three if not |
| `FalconRequests.OnlyRequests` | isekai/host/falcon/falcon_connection_state.cc:37-136 | There are no transactions but those of the requests submitted |
| `FalconRequests.DataWaitsForGrant` | isekai/host/falcon/falcon_connection_state.cc:65-71 | In every run, until its grant is delivered such a write has nothing but its request or its grant under way, and is not finished |
| `FalconTarget.TargetLatencies` | isekai/host/falcon/falcon_connection_state.cc:241-533 | In every run the stage latencies recorded at a target are the times between its handlers, all but those that end with an RNR |
| `FalconProtocol.NothingLeaks` | isekai/host/falcon/gen1/falcon_model.cc:389-471 | In every run a transaction that nothing waits for any more, no ACK of a request or grant either, has been forgotten by both hosts, and conversely |
| `Sgl.Buffer.CutPacketFromSgl` | isekai/host/rdma/rdma_falcon_work_scheduler.cc:640-659 | The loop that edits its list in place returns the packet and leaves the rest of the recursive cut |
| `Sgl.CutTotals` | isekai/host/rdma/rdma_falcon_work_scheduler.cc:640-659 | A cut totals the smaller of the MTU and what is left, and packet and rest add up to the list |
| `Sgl.PacketCount` | isekai/host/rdma/rdma_falcon_work_scheduler.cc:640-659 | An operation takes max(1, ceil(total / MTU)) packets |
| `Sgl.PacketSizes` | isekai/host/rdma/rdma_falcon_work_scheduler.cc:640-659 | Every packet but the last is full and together they hold the whole list |
| `Sgl.PacketsCarryTheList` | isekai/host/rdma/rdma_falcon_work_scheduler.cc:640-659 | Laid end to end, the packets have a segment boundary exactly where the list has one or at a multiple of the MTU |
| `Sgl.MergeExact` | isekai/host/rdma/rdma_falcon_work_scheduler.cc:640-659 | Merging the packets at the cuts gives back the list if and only if no segment of the list ends at a multiple of the MTU before the end of the list |
| `Sgl.MergeExample` | isekai/host/rdma/rdma_falcon_work_scheduler.cc:640-659 | Segments of 4 and 2 bytes and one of 6 are cut into the same packets at an MTU of 4 |
| `Sgl.EndsDetermine` | isekai/host/rdma/rdma_falcon_work_scheduler.cc:640-659 | A list of positive segments is determined by its boundaries |
| `Sgl.MatchPostedRecv` | isekai/host/rdma/rdma_falcon_model.cc:272-304 | Matching a packet against a posted receive takes the expected piece or leaves the posted list as it was |
| `Sgl.ReceiverMatches` | isekai/host/rdma/rdma_falcon_model.cc:272-304 | A receiver takes every packet of a sender in turn and runs out on the same one exactly if the two lists are cut into the same packets |
| `FalconCredits.RequestFitsMinimum` | isekai/host/rdma/rdma_falcon_work_scheduler.cc:239-259 | A request costs no more than the minimum checked for it if and only if its inline data and its list each fit the transmit units of the minimum and, for a read, response header and data fit the MTU rounded up to receive units |
| `FalconCredits.RequestFits` | isekai/host/rdma/rdma_falcon_work_scheduler.cc:685-724 | Any credits cover a request if and only if they have a packet for it and one for the reply, inline data and list each fit the transmit units, and a read's response fits the receive units |
| `FalconCredits.ResponseFits` | isekai/host/rdma/rdma_falcon_work_scheduler.cc:726-734 | Any credits cover a response if and only if they have a packet and its list fits the transmit units |
| `FalconCredits.ResponseFitsMinimum` | isekai/host/rdma/rdma_falcon_work_scheduler.cc:726-734 | A response costs no more than the minimum checked for it if and only if its list fits the transmit units of the minimum, as up to 32 segments do |
| `FalconCredits.ClampNearest` | isekai/host/rdma/rdma_falcon_model.cc:650-670 | A new limit is, in each pool, the one from 1 to the maximum that is nearest to what was asked for |
| `FalconCredits.DefaultUnitsFit` | isekai/host/rdma/rdma_falcon_work_scheduler.cc:685-734 | With the default allocation units of one byte that is: at most 52 segments, 870 bytes inline in a write, 878 in a send, and 4072 bytes read |
| `FalconCredits.FallbackUnitsFit` | isekai/host/rdma/rdma_falcon_work_scheduler.cc:222-259 | With the units of 64 and 128 bytes used without a Falcon configuration: at most 56 segments, 932 bytes inline in a write, 940 in a send, and 4072 bytes read |
| `SchedulerExamples.FullReadWraps` | isekai/host/rdma/rdma_falcon_work_scheduler.cc:708-718 | A run of three steps from boot in which one read of a full MTU takes a receive credit more than was checked, and the pool wraps around to 2^32 - 1 |
| `FalconCredits.CutCheapens` | isekai/host/rdma/rdma_falcon_work_scheduler.cc:685-724 | Cutting a packet off an operation never raises the cost of the rest |
| `FalconCredits.Spend` | isekai/common/model_interfaces.h:117-125 | Moving a cost from the 32-bit pool to the usage conserves their sum modulo 2^32 in all six pools, wrap-around included |
| `FalconCredits.Repay` | isekai/common/model_interfaces.h:108-116 | Adding a returned cost to the 32-bit pool restores the sum modulo 2^32 |
| `TokenBucket.TokenBucket.AreTokensAvailable` | isekai/common/token_bucket.cc:39-55 | Refills lazily and says whether the tokens are there |
| `TokenBucket.TokenBucket.RequestTokens` | isekai/common/token_bucket.cc:58-62 | Takes the tokens, or fails where the CHECK would, leaving them |
| `TokenBucket.LazyIsEager` | isekai/common/token_bucket.cc:39-62 | For every sequence of requests in time order the lazy bucket grants the same ones and holds the same tokens as a bucket topped up at every interval |
| `TokenBucket.GrantsBoundedFromFull` | isekai/common/token_bucket.cc:39-62 | Tokens granted by time t are at most the size plus one refill per elapsed interval |
| `TokenBucket.WaitEnds` | isekai/host/rdma/rdma_falcon_work_scheduler.cc:286-303 | A wait for tokens has a positive delay and is over after ceil(need / refill) wake-ups |
| `WorkScheduler.WorkScheduler.RunWorkScheduler` | isekai/host/rdma/rdma_falcon_work_scheduler.cc:272-356 | Takes the scheduler step of the state machine: too early, no tokens, idle, or a lookup of the head with quanta replenished |
| `WorkScheduler.WorkScheduler.AddQpToScheduleSet` | isekai/host/rdma/rdma_falcon_work_scheduler.cc:126-177 | Delays, refuses or lists a QP and starts an idle scheduler, as in the state machine, and keeps its invariant |
| `WorkScheduler.WorkScheduler.SetXoff` | isekai/host/rdma/rdma_falcon_work_scheduler.cc:179-210 | Sets both xoffs, starts an idle scheduler and keeps the invariant |
| `WorkScheduler.WorkScheduler.ReturnFalconCredits` | isekai/host/rdma/rdma_falcon_work_scheduler.cc:212-220 | Adds to the 32-bit pool and starts an idle scheduler |
| `WorkScheduler.WorkScheduler.UpdateWorkType` | isekai/host/rdma/rdma_falcon_work_scheduler.cc:625-638 | Switches the lane exactly if the other one can send |
| `WorkScheduler.WorkScheduler.Charge` | isekai/host/rdma/rdma_falcon_work_scheduler.cc:379-420 | QP usage and pacing, global credits, quanta and tokens after a send (`SchedulerPacing.SendPays` and `SchedulerTurns.QuantaExact` say what they come to) |
| `WorkScheduler.WorkScheduler.Continue` | isekai/host/rdma/rdma_falcon_work_scheduler.cc:427-491 | Whether the QP keeps the head of its lane, leaves it for good or comes back later, and the next event; fails where a deque would be popped empty |
| `WorkScheduler.WorkScheduler.SendTransaction` | isekai/host/rdma/rdma_falcon_work_scheduler.cc:358-491 | One send as in the state machine (`SchedulerTurns.TurnEnds` and `SchedulerFlow.FlowExact` say what it does in a run); fails exactly where the source would crash; when the event of the QP is due, it succeeds and keeps the invariant if and only if it is no response that takes the outbound-read-depth branch where that does harm |
| `WorkScheduler.WorkScheduler.FireChain` | isekai/host/rdma/rdma_falcon_work_scheduler.cc:322-356 | The pending event of the scheduler, a run or the result of a QP lookup, takes the step of the state machine, and succeeds and keeps the invariant if and only if it is no such response |
| `WorkScheduler.WorkScheduler.FireAdd` | isekai/host/rdma/rdma_falcon_work_scheduler.cc:126-145 | So does the event that adds a QP that had to wait |
| `Scheduler.TakeOk` | isekai/host/rdma/rdma_falcon_work_scheduler.cc:493-583 | A transaction puts at most MTU plus RDMA header on the wire, has at most 32 segments, and leaves the QP with admissible work |
| `Scheduler.ContinueShape` | isekai/host/rdma/rdma_falcon_work_scheduler.cc:427-491 | Outside the branch for responses over the read depth exactly one run event follows a send; the other lane is untouched; the QP keeps the head with credits and quanta left, or leaves with both quanta reset, an event to come back if and only if it could go on, and the work type chosen by what the other lane can send |
| `Scheduler.DepthBranchShape` | isekai/host/rdma/rdma_falcon_work_scheduler.cc:427-443 | In that branch the request lane is popped and the response lane keeps the QP; it fails if and only if the request deque is empty |
| `Scheduler.SendKeeps` | isekai/host/rdma/rdma_falcon_work_scheduler.cc:358-491 | A send on the head QP succeeds and preserves the whole invariant if and only if it is no response that takes that branch where it does harm |
| `Scheduler.Keeps` | isekai/host/rdma/rdma_falcon_work_scheduler.cc:126-491 | Every event of the scheduler, the QPs and Falcon succeeds (no deque popped empty, no token CHECK, no segment limit) and preserves the invariant, if and only if it is no such response |
| `Scheduler.LegalExact` | isekai/host/rdma/rdma_falcon_work_scheduler.cc:126-491 | Of all runs, exactly those without such a response keep the invariant throughout |
| `Scheduler.SingleChain` | isekai/host/rdma/rdma_falcon_work_scheduler.cc:126-356 | In every such run: the scheduler is idle exactly if none of its own events is pending and never has two; both deques are duplicate-free and equal their sets; every listed QP has work; a lookup is for the QP at the head |
| `SchedulerBooks.OneEvent` | isekai/host/rdma/rdma_falcon_work_scheduler.cc:272-356 | In every run, that branch taken or not, the scheduler is idle exactly if none of its own events is pending and never has two |
| `SchedulerBooks.CreditsConserved` | isekai/host/rdma/rdma_falcon_work_scheduler.cc:379-381 | In every run of admissible operations, whichever branch is taken, in all six pools the global credits left and the usage of all QPs sum to the configured total modulo 2^32 |
| `SchedulerBooks.KeepsSound` | isekai/host/rdma/rdma_falcon_work_scheduler.cc:358-491 | Every step that does not crash keeps the books and the one event |
| `SchedulerCredits.CreditsExact` | isekai/host/rdma/rdma_falcon_work_scheduler.cc:212-220 | If no operation posted costs more than the minimum, in every run, that branch taken or not, they sum to the total exactly: no counter wraps |
| `SchedulerCredits.ChargeExact` | isekai/host/rdma/rdma_falcon_work_scheduler.cc:379-381 | A send keeps the books exact if and only if the pool covers its cost |
| `SchedulerLimits.UsageWithinLimits` | isekai/host/rdma/rdma_falcon_work_scheduler.cc:661-683 | In every legal run whose steps respect the limits no QP uses more than its limit in any pool |
| `SchedulerLimits.KeepsWithin` | isekai/host/rdma/rdma_falcon_work_scheduler.cc:661-683 | A step keeps every QP within its limit and every listed QP able to pay for its next transaction, if and only if it neither lowers a limit below what it has to cover nor sends, in the read-depth branch, a response of a QP that cannot pay for one more |
| `SchedulerLimits.LimitsExact` | isekai/host/rdma/rdma_falcon_work_scheduler.cc:661-683 | Of the legal runs, exactly those whose steps all do so keep that throughout |
| `SchedulerLimits.DepthBranchLimits` | isekai/host/rdma/rdma_falcon_work_scheduler.cc:427-443 | When a response takes the read-depth branch no QP goes over its limit by it; afterwards every listed QP can pay if and only if the sender had two responses to send and credits for both, and it has work left if and only if it had two |
| `Scheduler.DepthBranchExact` | isekai/host/rdma/rdma_falcon_work_scheduler.cc:427-443 | When a response takes the outbound-read-depth branch, it succeeds with both lanes in order (deque equal to set, no duplicates, every listed QP with work) if and only if the same QP heads the request lane and had at least two inbound reads to answer |
| `SchedulerExamples.DepthBranchExample` | isekai/host/rdma/rdma_falcon_work_scheduler.cc:427-443 | A run from boot in which one QP answers three reads in that branch: the first response drops another QP from the deque but not from the set, the second takes the QP over its limit, the third pops an empty deque |
| `SchedulerExamples.LastResponseExample` | isekai/host/rdma/rdma_falcon_work_scheduler.cc:358-443 | A run from boot in which a QP heads both lanes and answers its last inbound read in that branch: request deque and set agree, no limit is exceeded, and two events later its empty queue is read |
| `Scheduler.ReturnKeeps` | isekai/host/rdma/rdma_falcon_model.cc:546-570 | Returning a credit conserves the books through all the notifications it causes |
| `Scheduler.ContextKeeps` | isekai/host/rdma/rdma_falcon_model.cc:600-690 | Posting, xoff, limit changes and finished reads keep the invariant through all the notifications they cause |
| `SchedulerTurns.WireExact` | isekai/host/rdma/rdma_falcon_work_scheduler.cc:493-583 | A transaction puts its header and, unless it is a read, the inline data or as much of the list as fits the MTU on the wire; a response all it was asked for |
| `SchedulerTurns.QuantaExact` | isekai/host/rdma/rdma_falcon_work_scheduler.cc:387-394 | In every run the bytes left of a lane's quanta are the quanta less the sizes, outer headers included, of the packets sent in the current turn, and the ops left are eight less their number; a turn that goes on has sent fewer bytes than the quanta and fewer than eight packets |
| `SchedulerTurns.TurnEnds` | isekai/host/rdma/rdma_falcon_work_scheduler.cc:427-491 | In every run a send leaves its QP at the head if and only if the turn, this packet included, is within the quanta and eight packets and the QP has more to send, credits, no xoff and no read to wait for, or it is a response of a QP that waits for a read; else the QP leaves the lane |
| `SchedulerPacing.SendPays` | isekai/host/rdma/rdma_falcon_work_scheduler.cc:379-420 | A send takes its bytes from the tokens, its cost from the pool and adds it to its QP's usage, moves the QP's next time by the gap from now or from the time set, and leaves all other QPs alone; nobody joins a lane |
| `SchedulerPacing.NextTimeExact` | isekai/host/rdma/rdma_falcon_work_scheduler.cc:411-416 | In every run the next time of a QP is the first by which, for each of its sends, the gap has passed as often as it has sent since |
| `SchedulerPacing.JoinsLate` | isekai/host/rdma/rdma_falcon_work_scheduler.cc:126-145 | In every run a QP joins a lane no sooner than, after each of its sends, as many gaps as it has sent from that send on |
| `SchedulerPacing.AddsInTime` | isekai/host/rdma/rdma_falcon_work_scheduler.cc:126-177 | In every legal run, once that time has come the event that is to add a QP with work, credits and no xoff does so |
| `SchedulerPacing.SendsApart` | isekai/host/rdma/rdma_falcon_work_scheduler.cc:272-284 | In every run transactions go out at least a chip cycle apart |
| `SchedulerPacing.BytesBounded` | isekai/host/rdma/rdma_falcon_work_scheduler.cc:286-303 | In every run the bytes sent by a time are at most the size of the bucket and one refill per interval that has passed |
| `SchedulerFlow.FlowExact` | isekai/host/rdma/rdma_falcon_work_scheduler.cc:493-583 | In every run a QP's send queue is the end of what was posted, in order, with the first operation perhaps in part, and holds exactly the bytes not sent; its inbound reads are those asked for less those answered, in order; its outbound reads are those sent less those done; its xoffs and limit are what it was told last |
| `SchedulerFlow.XoffsHeeded` | isekai/host/rdma/rdma_falcon_work_scheduler.cc:126-210 | In every run the global xoffs are those set last, and a QP that joins a lane has no xoff of its own, work for that lane and the credits |
| `SchedulerFlow.IdleForAReason` | isekai/host/rdma/rdma_falcon_work_scheduler.cc:261-356 | In every run the scheduler is idle only if each type is under xoff, has no QP listed, or lacks the minimum of credits |
| `SchedulerFlow.RunEventDecides` | isekai/host/rdma/rdma_falcon_work_scheduler.cc:272-356 | After any run the scheduler's own event runs again if and only if a chip cycle has not passed or the tokens do not cover a packet; else it looks up the head of a lane that may send, of the current type if that may, and sleeps only if neither may |
| `BoundedWaiting.SendProgress` | isekai/host/rdma/rdma_falcon_work_scheduler.cc:387-486 | A send outside the read-depth branch of responses uses up one op of the turn of the head QP or ends the turn, and leaves the other lane alone |
| `BoundedWaiting.BranchProgress` | isekai/host/rdma/rdma_falcon_work_scheduler.cc:427-443 | A harmless response in that branch ends the turn of the head of the request lane, and requests are next if they can be sent |
| `BoundedWaiting.BoundedWait` | isekai/host/rdma/rdma_falcon_work_scheduler.cc:322-338 | While requests can be sent, a QP at position k of the request lane is at the head before 8k request transactions and before 16k transactions of either kind have gone out, harmless responses in the read-depth branch included |
| `SchedulerWork.StepServes` | isekai/host/rdma/rdma_falcon_work_scheduler.cc:126-491 | A QP that is listed, or about to be, for the work it can do stays so in every step, if and only if the step is not the event that puts it back after its turn, fired while the other lane is current, with nothing else pending that would list it |
| `SchedulerWork.NoWorkLost` | isekai/host/rdma/rdma_falcon_work_scheduler.cc:126-491 | Of the legal runs, exactly those without such an event have every QP with work, credits and no xoff, and not waiting for a read to finish, listed or about to be listed throughout |
| `SchedulerWork.LosesMakesLost` | isekai/host/rdma/rdma_falcon_work_scheduler.cc:474-481 | Such an event loses a QP that has no other work and no other event pending |
| `SchedulerWork.LostStays` | isekai/host/rdma/rdma_falcon_work_scheduler.cc:126-177 | A lost QP stays lost in every run, however long and whatever the other QPs do and however much more of the same work is posted, until credits return to it, its limit or xoff changes, one of its reads finishes or work of the other type arrives |
| `SchedulerExamples.LostWorkExample` | isekai/host/rdma/rdma_falcon_work_scheduler.cc:474-481 | A legal run from boot at whose end the scheduler is idle with no event pending, although a QP has a write, credits for it and no xoff |
| `Completion.QpContext.SendOne` | isekai/host/rdma/rdma_falcon_work_scheduler.cc:493-562 | Cuts a transaction with the next RSN, and on the last one moves the operation to the completion queue |
| `Completion.QpContext.ProcessAnswer` | isekai/host/rdma/rdma_falcon_model.cc:697-724 | Counts an answer and completes the operation on the last; fails where a CHECK would or a destroyed operation would be used |
| `Completion.Keeps` | isekai/host/rdma/rdma_falcon_model.cc:483-523 | Posting what PerformOp lets through, sending and answers in any order preserve the invariant without a failed CHECK or a use after destruction |
| `Completion.CompletesExactlyOnce` | isekai/host/rdma/rdma_falcon_model.cc:697-724 | In every run an operation is completed if and only if all its transactions were sent and answered; no callback runs twice; no RSN refers to a destroyed operation |
| `Completion.TransactionsBalance` | isekai/host/rdma/rdma_falcon_work_scheduler.cc:536-560 | In every run RSNs follow the order of posting without gaps, and finished plus open transactions of an operation are those sent |
| `Completion.ReadsLeft` | isekai/host/rdma/rdma_falcon_model.cc:492-500 | When everything has been answered the outbound read count is the number of read transactions beyond the first of their operation |
| `CompletionCounts.TransactionCount` | isekai/host/rdma/rdma_falcon_work_scheduler.cc:493-562 | In every run an operation has at most its number of transactions, one for inline data or an empty list and else its bytes over the MTU rounded up, and has them all, and counts on as many answers, exactly once it has left the send queue |
| `CompletionCounts.ReadCountDrains` | isekai/host/rdma/rdma_falcon_model.cc:492-500 | When everything has been answered the outbound read count follows from the sizes posted, and is zero if and only if every read posted fits the MTU |
| `Completion.ReadCountLeaks` | isekai/host/rdma/rdma_falcon_model.cc:492-500 | A read of two transactions, answered in full, leaves the count at one |
| `MmuIngress.IngressCounters.ReceivedData` | isekai/fabric/memory_management_unit.cc:342-443 | Admits to guarantee, pool or headroom, or drops, moving the counters and filling in the metadata as written (`MmuPfc.ArrivesExactly` says when and where); fails exactly where the source stops |
| `MmuIngress.IngressCounters.DequeuedPacket` | isekai/fabric/memory_management_unit.cc:697-736 | Releases by the metadata and ends PFC below the limit (`MmuPfc.DepartsExactly`); fails exactly where a CHECK does |
| `MmuIngress.ReceiveMoves` | isekai/fabric/memory_management_unit.cc:342-443 | No FATAL or CHECK fires on arrival; the counters move by shares that sum to the packet; the metadata is those shares, except that as written a straddling packet loses its guarantee share |
| `MmuIngress.ReleaseMoves` | isekai/fabric/memory_management_unit.cc:553-583 | With true shares a packet releases exactly what it held |
| `MmuIngress.StopsOnStraddle` | isekai/fabric/memory_management_unit.cc:697-736 | In every run of the code as written the simulation is stopped if and only if a packet departs that straddled the guarantee on arrival; until then all counters are the sums over the packets, within their limits, and the pool is conserved |
| `MmuIngress.NeverStopsFromRoomBefore` | isekai/fabric/memory_management_unit.cc:404-411 | With the share computed before the counter moves, every run conserves everything and nothing stops it |
| `MmuIngress.NeverStopsWithoutGuarantees` | isekai/fabric/memory_management_unit.cc:212-215 | Without minimal guarantees no packet straddles and nothing stops a run |
| `MmuIngress.MemoryBounded` | isekai/fabric/memory_management_unit.cc:342-443 | In every run the packets held never exceed pool, guarantees and headrooms together |
| `MmuIngress.StraddleExample` | isekai/fabric/memory_management_unit.cc:404-411 | One packet of 12 cells over a guarantee of 10 stops the simulation on departure |
| `MmuPfc.ArrivesExactly` | isekai/fabric/memory_management_unit.cc:342-443 | After any run, in terms of the packets held: a packet that arrives turns PFC on for its queue if and only if those of the queue have reached alpha times the free cells plus the guarantee, or it is larger than the free cells. Under PFC it is kept if and only if the headroom has room; else it is always kept, in what is left of the guarantee and then the pool, or all in the pool once the guarantee is used up; no other packet or queue changes |
| `MmuPfc.DepartsExactly` | isekai/fabric/memory_management_unit.cc:697-736 | After any run, a departure stops the simulation if and only if, as written, the packet straddled; else it is the only packet to go, and PFC ends for its queue, and no other, if and only if the packets left are below that limit |
| `MmuPfc.GuaranteeHolds` | isekai/fabric/memory_management_unit.cc:355-364 | A packet that fits the guarantee together with those of its queue, and is no larger than the free cells, is kept there and triggers nothing, in every run in which its queue is not under PFC |
| `MmuEgress.EgressCounters.RequestEnqueue` | isekai/fabric/memory_management_unit.cc:465-535 | Admits exactly if pool, port share and queue share allow it, and moves all three counters (`MmuEgress.HeldExactly` says the same of the packets held) |
| `MmuEgress.HeldExactly` | isekai/fabric/memory_management_unit.cc:465-535 | After any run, in terms of the packets held: a packet that arrives is held from then on if and only if all packets and it fit the pool and, with it, those of its port and those of its queue stay below alpha times the free cells; else nothing changes or, with PFC, the run stops; a departure removes that packet only |
| `MmuEgress.EgressCounters.DequeuedPacket` | isekai/fabric/memory_management_unit.cc:585-594 | Gives the cells back, or fails where a CHECK does |
| `MmuEgress.AdmitBelow` | isekai/fabric/memory_management_unit.cc:496-523 | A counter admitted under its share of the free cells satisfies (1 + alpha) x < alpha (pool + frame) |
| `MmuEgress.RunsConserve` | isekai/fabric/memory_management_unit.cc:465-535 | In every run no CHECK fails and, with PFC, the run stops exactly on the first packet that does not fit beside the packets held; free cells and ports make up the pool, ports their queues, queues their packets; every non-empty queue and port satisfies (1 + alpha) x < alpha (pool + frame) |
| `MmuEgress.NothingWithoutShare` | isekai/fabric/memory_management_unit.cc:511-523 | A queue with alpha zero never holds a packet |
| `PortEvents.Ports.Arbitrate` | isekai/fabric/arbiter.cc:34-44 | The loop finds the first queue that can transmit |
| `PortEvents.Ports.Enqueue` | isekai/fabric/network_port.cc:226-238 | Queues a packet and wakes an idle port |
| `PortEvents.Ports.MakePfc` | isekai/fabric/network_port.cc:271-287 | Merges into the one PFC frame and wakes an idle port |
| `PortEvents.Ports.Send` | isekai/fabric/network_port.cc:138-150 | Logs the frame and schedules the next output; fails if one is scheduled already |
| `PortEvents.Ports.Output` | isekai/fabric/network_port.cc:242-269 | Sends a PFC frame, else the winner of the arbiter with a PFC frame generated on the way, else goes idle (`PortProgress.OutputServes` says what leaves the port) |
| `PortProgress.OutputServes` | isekai/fabric/network_port.cc:242-269 | An output removes exactly one frame, the PFC frame if there is one and else a packet of the first priority that waits and is not paused, logs it and schedules the next output after it; or there is none and the port goes idle. Another port changes only if a packet left and its dequeueing generated a frame there |
| `PortProgress.StepExact` | isekai/fabric/network_router.cc:222-283 | In every step no CHECK fails and every port serves a frame in this way if its output runs (at its output event or, if it is idle, at the end of a pause), gains a packet or a PFC frame and wakes up if idle, changes its pause, or stays as it is |
| `PortProgress.NothingLost` | isekai/fabric/network_port.cc:226-287 | In every run the PFC frames generated on a port are those sent and the one waiting, and the packets enqueued with each priority are those sent and those waiting |
| `PortProgress.SoonOut` | isekai/fabric/network_port.cc:242-269 | From any point of any run, while nothing new comes for an active port, each output event sends a frame as long as a packet waits that was not paused, and all such packets are out once there were as many output events as packets and PFC frames waited |
| `PortEvents.Ports.Resume` | isekai/fabric/network_port.cc:289-294 | Runs the output of an idle port at once and leaves an active one alone |
| `PortEvents.Ports.SetPfcPaused` | isekai/fabric/memory_management_unit.cc:605-617 | Moves the end of the pause and its resume event, which an X-on cancels |
| `PortEvents.OutputKeeps` | isekai/fabric/network_port.cc:242-269 | The output handler leaves every port in order even when dequeueing generates a frame on the same or another port; the already-scheduled CHECK cannot fire |
| `PortEvents.RefreshKeeps` | isekai/fabric/network_router.cc:279-283 | The end of a pause leaves every port in order, and awake if it was |
| `PortEvents.RefreshSends` | isekai/fabric/network_router.cc:279-283 | At the end of a pause an idle port sends at once a packet of the first priority that waits and is not paused, and there is one if packets of the resumed priority wait |
| `PortEvents.PauseKeeps` | isekai/fabric/memory_management_unit.cc:605-617 | A pause leaves the port awake if and only if it is not an X-on that finds the port idle with packets of its priority |
| `PortEvents.Keeps` | isekai/fabric/network_router.cc:222-283 | No CHECK fails in any step, and a step keeps every port awake if and only if it is not such an X-on |
| `PortEvents.PortsNeverStuck` | isekai/fabric/network_port.cc:226-294 | In every run no CHECK fails and a port is active exactly while its one output event is pending; without such an X-on an idle port with packets has a resume event pending at the end of the pause of each waiting priority |
| `PortEvents.StrandedStays` | isekai/fabric/memory_management_unit.cc:605-617 | After such an X-on, with no pause of another priority pending on the port, no run, however long and whatever happens on other ports, changes anything on the port until a packet, a PFC frame or a pause comes in for it |
| `PortEvents.StrandExample` | isekai/fabric/memory_management_unit.cc:611-616 | A run of one port that gets there |
| `Ipv6Trie.IPTable.Insert` | isekai/common/ipv6_trie.h:79-154 | Both loops together store the value under the leading ones of the mask, exactly if nothing was stored there before; the overwrite flag plays no part |
| `Ipv6Trie.IPTable.InsertRest` | isekai/common/ipv6_trie.h:128-154 | The second loop adds the missing nodes and stores the value |
| `Ipv6Trie.IPTable.InsertAll` | isekai/common/ipv6_trie.h:79-154 | A table filled range by range holds the first value of every prefix, which is what lookups are specified on |
| `Ipv6Trie.IPTable.FindLongest` | isekai/common/ipv6_trie.h:156-188 | The loop ends and returns the value of the longest stored prefix of the address |
| `Ipv6Trie.IPTable.Grow` | isekai/common/ipv6_trie.h:128-149 | A new node keeps the correspondence of nodes and bit strings |
| `Ipv6Trie.LongestMatch` | isekai/common/ipv6_trie.h:79-188 | After any sequence of inserts a lookup fails if and only if no prefix matches, and otherwise gives the value of the one entry that no matching entry beats by a longer prefix or an earlier insert |
| `Ipv6Trie.MatchesUnderMask` | isekai/common/ipv6_trie.h:34-50 | For contiguous masks matching a prefix is equality under the mask |
| `ChannelManager.NetworkChannelManager.Schedule` | isekai/host/rnic/network_channel_manager.cc:41-51 | Queues a signal and schedules its wake-up at the later of its time and the end of the transmission |
| `ChannelManager.NetworkChannelManager.Wake` | isekai/host/rnic/network_channel_manager.cc:53-68 | Retries while the channel is busy, else sends a signal that no other precedes |
| `ChannelManager.TopIsDue` | isekai/host/rnic/network_channel_manager.cc:53-68 | A wake-up always finds a signal in the queue whose time has come |
| `ChannelManager.ChannelSafe` | isekai/host/rnic/network_channel_manager.cc:41-68 | In every run there are as many wake-ups as queued signals and by any time no more wake-ups than signals are due; no signal goes out early or during another transmission; every signal given is still queued or went out once |
| `ChannelManager.RunsOnTime` | isekai/host/rnic/network_channel_manager.cc:41-68 | In every run each signal goes out exactly at its scheduled time or when the transmission before it is over, whichever is later |
| `ChannelManager.NeverIdle` | isekai/host/rnic/network_channel_manager.cc:41-68 | After any run, time passes by the scheduled time of a queued signal only while another is in the channel |
| `ChannelManager.Drains` | isekai/host/rnic/network_channel_manager.cc:41-68 | Once nothing new is given, n queued signals are out after at most n^2 + n wake-ups, and while one is queued a wake-up is pending |
| `HostRxPath.HostPath.PushPacket` | isekai/host/rdma/rdma_per_host_rx_buffers.cc:108-165 | Passes a packet to the PCIe queue or buffers it, counts its bytes in 32 bits and pushes back at the limit |
| `HostRxPath.HostPath.WakeupCallback` | isekai/host/rdma/rdma_per_host_rx_buffers.cc:55-97 | The loop moves packets from the buffer until the queue is full, and lets Falcon go on below the limit |
| `HostRxPath.HostPath.EnqueuePacket` | isekai/host/rnic/memory_interface.cc:152-159 | Appends and starts a transmission if none is under way |
| `HostRxPath.HostPath.CompleteTransmit` | isekai/host/rnic/memory_interface.cc:122-141 | Starts the next transmission and wakes the user if the queue was full or empty |
| `HostRxPath.SizesAgree` | isekai/host/rdma/rdma_per_host_rx_buffers.cc:59-66 | The two ways of removing the header give the same size if and only if the payload has a whole header and the rest fits an int; a shorter payload gets a size near 2^64 |
| `HostRxPath.RunsInOrder` | isekai/host/rdma/rdma_per_host_rx_buffers.cc:108-165 | In every run no CHECK fails, a non-empty buffer means a full queue, and transmitted, current, queued and buffered packets in this order are the packets pushed, payloads included |
| `HostRxPath.SizesWritten` | isekai/host/rdma/rdma_per_host_rx_buffers.cc:55-165 | In every run a packet is written with its payload less the header, whichever way it took, if the payload has a header and at most 2^31 - 1 bytes more |
| `HostRxPath.QuietMeansDone` | isekai/host/rnic/memory_interface.cc:122-159 | With no transmission under way everything pushed has been transmitted, if and only if the queue has a slot or nothing was pushed |
| `HostRxPath.XoffExact` | isekai/host/rdma/rdma_per_host_rx_buffers.cc:108-165 | With a positive limit and fewer than 2^32 buffered bytes, in every run the counter is the bytes buffered and Falcon is held back exactly while they are at or above the limit |
| `HostRxPath.XoffAtBoot` | isekai/host/rdma/rdma_per_host_rx_buffers.cc:92-96 | That holds at the start if and only if the limit is positive |
| `AckOrdering.FalconQp.ProcessIncoming` | isekai/host/rdma/rdma_falcon_model.cc:726-756 | Accepts, refuses with RNR or stops the simulation, and updates the expected RSN and the RNR state |
| `AckOrdering.AcceptsInOrder` | isekai/host/rdma/rdma_falcon_model.cc:726-756 | Whatever arrives, in whatever order and however often refused, the accepted RSNs are 0, 1, 2, ... |
| `AckOrdering.RemembersExactly` | isekai/host/rdma/rdma_falcon_model.cc:726-756 | Whatever arrives, the expected RSN is the number of requests that came as the next in order with nothing against them, and the RNR state is set if and only if since the last of them there was a request without a receive or the next one was refused |
| `AckOrdering.OutcomeExact` | isekai/host/rdma/rdma_falcon_model.cc:726-756 | After any arrivals a request is accepted if and only if it is the next in order, has a receive and is not refused; it stops the simulation if and only if it is out of order, has a receive and there was no such thing; else it gets a NACK |
| `AckOrdering.GoBackResumes` | isekai/host/rdma/rdma_falcon_model.cc:726-736 | After any run and going back, n deliveries with nothing against them are n acceptances |
| `AckOrdering.GoBackNeverFatal` | isekai/host/rdma/rdma_falcon_model.cc:726-736 | If Falcon delivers in order and goes back to the oldest RSN not accepted, the out-of-order stop never happens |
| `AckOrdering.LateRequestFatal` | isekai/host/rdma/rdma_falcon_model.cc:726-736 | If it does not go back, a request already on its way can stop the simulation |
| `AckOrdering.AckTimesOrdered` | isekai/host/rdma/rdma_falcon_model.cc:308-333 | The time of an ACK, the later of issue and acceptance plus latency, never decreases with the RSN |
| `AckOrdering.AckOrderExact` | isekai/host/rdma/rdma_falcon_model.cc:362-388 | Of two requests the earlier is acknowledged first if and only if the later one is not acknowledged on the spot at the very time the ACK of the earlier is scheduled for, in an event scheduled before it |
| `AckOrdering.OvertakersWaited` | isekai/host/rdma/rdma_falcon_model.cc:362-388 | A request that overtakes is no read and was issued at least the latency after it was accepted; the one it overtakes was accepted at the same time, or is a read that waited as long and was issued at the same time |
| `AckRuns.RunsAckInOrder` | isekai/host/rdma/rdma_falcon_model.cc:305-337 | In every run of acceptance, receive path and clock together, with traffic of other QPs in between, the requests are delivered as RSN 0, 1, 2, ..., ACK times never decrease with the RSN, and ACKs come in RSN order if and only if no request overtakes in that way |
| `AckRuns.RunsFormed` | isekai/host/rdma/rdma_falcon_model.cc:726-756 | Nothing but a request out of order stops such a run |
| `AckRuns.MoveIssues` | isekai/host/rdma/rdma_per_host_rx_buffers.cc:55-97 | No event of the receive path issues more than one packet, and only the QP stops a run |
| `AckRuns.RoomMeansOrder` | isekai/host/rdma/rdma_falcon_model.cc:431-455 | In every run in which the PCIe queue has room for every packet pushed, ACKs come in RSN order if the latency is positive; without latency if and only if no write or send is accepted at the same time as a read before it in an event scheduled before the ACK of the read |
| `AckRuns.PaceMeansOrder` | isekai/host/rdma/rdma_falcon_model.cc:188-218 | In every run in which requests are processed at different times, whatever the latency, a request overtakes only a read that waited for as long as the latency and was issued at the same time, and if the queue has room for every packet pushed ACKs come in RSN order |
| `AckRuns.TieOvertakes` | isekai/host/rdma/rdma_falcon_model.cc:440-455 | Without latency, a run of two events in which nothing waits and a write is acknowledged before the read before it |
| `AckRuns.FewNeverFull` | isekai/host/rnic/memory_interface.cc:122-159 | It has if no more packets are pushed than it has slots, plus the one being transmitted |
| `AckRuns.WriteOvertakesRead` | isekai/host/rdma/rdma_falcon_model.cc:440-455 | A run of four events in which a write that waited in the buffer is acknowledged before the read before it |
| `SimpleEnvironment.Environment.ScheduleEvent` | isekai/common/simple_environment.cc:63-73 | Queues an event with the next id |
| `SimpleEnvironment.Environment.Top` | isekai/common/simple_environment.h:85-92 | Finds an event that no other precedes in time and id |
| `SimpleEnvironment.Environment.Run` | isekai/common/simple_environment.cc:27-37 | Each round executes the top event, advances the clock and lets its callback schedule and stop; it ends early only when stopped or empty |
| `SimpleEnvironment.ExecutedInOrder` | isekai/common/simple_environment.cc:27-37 | In the whole life of an environment scheduled events are executed in strictly increasing order of time and id, and everything still queued comes after everything executed |
| `SimpleEnvironment.TimeNeverGoesBack` | isekai/common/simple_environment.cc:27-37 | From any point of a run on, the clock does not go back and no execution is undone |
| `SimpleEnvironment.NothingLost` | isekai/common/simple_environment.cc:27-73 | Every event added is still queued or was executed, once |
| `SimpleEnvironment.RunEndsAtDeadline` | isekai/common/simple_environment.cc:41-61 | If no callback stops it, a run with a deadline leaves only later events and stop sentinels, and ends at the deadline if and only if no earlier sentinel was left by a run stopped before its own deadline |
| `SimpleEnvironment.RunDoesNotResume` | isekai/common/simple_environment.cc:27-37 | Run on a stopped environment executes nothing |

## Left out

- FalconProtocol.NoCheckFails: the reliability layer (windows, retransmission, NACK and RACK handling) is not part of the model; each packet is delivered once.
- Scheduler.SingleChain: for runs in which no response takes the outbound-read-depth branch where that does harm, because the statement about the lanes is false in all others (Scheduler.LegalExact; SchedulerExamples.DepthBranchExample and SchedulerExamples.LastResponseExample are such runs, and SchedulerBooks.OneEvent is what holds in all of them).
- SchedulerBooks.CreditsConserved: modulo 2^32, because the exact form is false for operations that cost more than the minimum (see SchedulerCredits.CreditsExact and SchedulerCredits.ChargeExact), and for operations with inline data within the MTU and packets of at most 32 segments; larger ones are not modelled.
- BoundedWaiting.BoundedWait: for steps that keep the lanes in order (see Scheduler.Keeps).
- SchedulerLimits.UsageWithinLimits: for runs whose steps respect the limits, because the statement is false otherwise (see SchedulerLimits.LimitsExact).
- PortEvents.StrandedStays: for ports with no other pause pending, because the end of another pause sends the packets (see PortEvents.RefreshSends).
- HostRxPath.XoffExact: for fewer than 2^32 buffered bytes, because the 32-bit counter wraps around beyond.
- SimpleEnvironment.Environment.Run: bounded to a given number of rounds, because callbacks can keep the original loop going for ever.
- Updates of whole records: a class holds its counters, queues and contexts as values (`seq`, `map`, datatypes) that its methods reassign; sharing of objects between components is not modelled, except that Completion and Ipv6Trie keep objects in a store and refer to them by identity.
- Congestion control, connection and resource managers, ACK coalescing, reordering and the connection scheduler of Falcon: they act on transactions only through the interfaces modelled as environment steps.
- ECN marking and WRED: they do not affect the occupancy counters.
- Routing decisions (WCMP), packet formats, header insertion and Ethernet signals.
- Contents of packets in the switch: queues are counted by priority, not by packet.
- Statistics, histograms, configuration, text conversion of addresses and test helpers.
- The RDMA receive pipeline's pacing, the RoCE model and traffic generation.
- RunFor and RunUntil differ only in how the deadline is given; the CHECKs on their arguments are assumptions of the steps.
