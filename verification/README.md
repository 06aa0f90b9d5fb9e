# A verified model of plexy

plexy is a TCP proxy.  A tunnel listens on a local socket and forwards every
client to one of several remotes, which it chooses by a load-balancing strategy,
watches for errors, takes out of service and probes until they answer again.
This project models its three hard parts in Dafny and proves what they are for.

**The relay** (`Endpoints`, `Relay`).  The hand-written poll state machine that
copies one direction through a fixed buffer, and the future that runs two of
them.  Sources, sinks and the close signal are classes whose methods may return
any outcome their contracts allow (Pending, partial, error, at any call), so the
proofs hold for every peer and every scheduler.  A poll that writes nothing to a
buffer of size 0 looks like the end of the stream; `Relay.DoneDelivered` therefore
states delivery as an equivalence: a completed direction that was not stopped has
delivered its source if and only if the buffer has room for a byte or the source
is empty.

**The tunnel** (`IndexMaps` to `Underflows`, and `Processes`).  Every operation of the
shared state is one critical section on one tunnel record.  `States.State` holds
that state in fields and its methods update it; each is proved equal to a function
on the record.  `Machine` makes a run of one tunnel out of these functions: any
sequence of events of clients, probes of dead remotes, commands and other
tunnels, with the history that the properties speak about.  `Runs` proves what
holds in every state that a run can reach, and `Histories` that the statistics of
a remote are counts over the run.  `Processes` closes the circle: the program of a
client, over the `State` object and interrupted by whatever blocks of events a
schedule lets all others perform, performs events of a run and nothing else, and
so do the end of a probe and the commands that change a tunnel.  So everything
proved of runs holds of these programs, and what a client counts for in the
statistics are the bytes that the relay wrote.

**The tunnel notation** (`Text`, `SocketSpecs`, `Tunnels`, `Notation`).  The
backtracking grammar of socket specifications, option lists and tunnels, a
declarative definition of the same language, and both inclusions between them;
then normal forms, their splitting into host and port, printing and reading back.

How to read the accounts of a remote: a record is born when its remote is added,
and a client is given the record that it selects.  Two things make the counts of
a record part from the clients that there are: a client finds its record dead when
it connects, fails or leaves, and is not counted then; or it finds a later
record under the same name and is counted there.  `Machine.Book` counts these
events.  `Runs.ExactAccounts` is the resulting law, `Accounts.CountsDriftIff` says
exactly which events make a count drift, and `Underflows` shows that a count can
fall below zero if and only if the options of the tunnel let a client try to
connect at all.

Where the code and its documentation differ the model follows the code:
the option `check-interval` is read (src/tunnel/parser.rs:102) but dead remotes are
probed every ten seconds (src/state.rs:251); and the bracketed text of a host,
which resembles an address of section 2.2 of RFC 4291, may be any list of groups
of up to four hex digits, empty ones included.

## Model

| member | source | states |
|---|---|---|
| Relay.BooksPrefix | src/aio.rs:136-149 | what has been written is a prefix of the source, whenever read bytes are written bytes followed by held bytes |
| Relay.BooksRead | src/aio.rs:50-59 | a read appends the next bytes of the source to the held ones and keeps the books |
| Relay.BooksWrite | src/aio.rs:143-148 | writing and reporting i held bytes keeps the books: no byte is lost, repeated or reordered, and the reports still add up to the bytes written |
| Relay.CopyBuffer.PollFillBuf | src/aio.rs:42-60 | held bytes stay, exactly the next bytes of the source follow them, and no progress into a buffer with room means the source is drained |
| Relay.CopyBuffer.PollWriteBuf | src/aio.rs:62-84 | a Pending write tops the buffer up exactly when there is room and more may come, without touching the held bytes; an accepted one takes a prefix of them |
| Relay.CopyBuffer.FillOrFlush | src/aio.rs:115-133 | the empty buffer is refilled from its start; if this poll of the source finds no input, everything written is flushed or this call has polled the flush and was refused |
| Relay.CopyBuffer.WriteOnce | src/aio.rs:137-148 | position, count, progress reports and flush flag move by exactly what the sink accepted; a write of zero bytes is the error WriteZero |
| Relay.CopyBuffer.WriteOut | src/aio.rs:136-149 | the held bytes are written completely or something is awaited or has failed, and at most a buffer of bytes after the close signal |
| Relay.CopyBuffer.CopyTurn | src/aio.rs:115-164 | one turn of the loop reads at least a byte or empties the buffer, or else ends with the right outcome: EOF completes only after a flush, and Pending means that what is awaited was polled in this turn |
| Relay.CopyBuffer.PollCopy | src/aio.rs:86-166 | at every return the ledger holds (bytes read are bytes written and then the held bytes, amt counts those written); the loop terminates; Pending means that this call polled the close signal and exactly what the copy lacks, and was refused; completion is a flushed end of source or the close signal, which stops it at once |
| Relay.Direction.Continue | src/aio.rs:200-203 | the copy is polled while running and replaced by its count when complete |
| Relay.Direction.ShutDown | src/aio.rs:204-208 | nothing is written once the shutdown has begun, Pending means that this call polled it, and done means shut down with the same count |
| Relay.Direction.TransferOneDirection | src/aio.rs:185-212 | a direction only moves Running, ShuttingDown, Done, keeps its count, never polls a completed copy, close signal or shutdown again, and returns the count exactly when done |
| Relay.CopyBidirectional.Poll | src/aio.rs:221-245 | one direction cannot disturb the other, a finished one only repeats its count, an error of either ends the whole, and Pending means that in this very call every unfinished direction polled what it waits for |
| Relay.DoneDelivered | src/aio.rs:159-165 | a direction that completed without the close signal has delivered and flushed its whole source and shut down, if and only if the buffer size is positive or the source is empty |
| Relay.CopyStreams | src/aio.rs:248-282 | the future is polled again and again until it is ready: if it is still Pending it was polled exactly as often as there were polls, and every unfinished direction was refused what it waits for; each side has received a prefix of the other's bytes, fully reported, at most a buffer of it after the close signal; the result is the two lengths, and without a signal both streams are delivered |
| Endpoints.Progress.Update | src/aio.rs:270-274 | every report is recorded once, so that their sum grows by its argument |
| Endpoints.StopSignal.Poll | src/aio.rs:86-96 | ready exactly when raised, and never polled after completion |
| SocketSpecs.HostNameExact | src/tunnel/parser.rs:27-35 | every host name followed by something else is recognised whole |
| SocketSpecs.HostNameSound | src/tunnel/parser.rs:27-35 | what is recognised is a host name: a letter first, no dot or dash last |
| SocketSpecs.IPv6Exact | src/tunnel/parser.rs:37-47 | every bracketed list of groups of at most four hex digits is recognised, and exactly it |
| SocketSpecs.IPv6Sound | src/tunnel/parser.rs:37-47 | nothing else is recognised as a bracketed address |
| SocketSpecs.IPv4Exact | src/tunnel/parser.rs:49-51 | every dotted quadruple of octets is recognised, and exactly it |
| SocketSpecs.IPv4Sound | src/tunnel/parser.rs:49-51 | nothing else is recognised as one |
| SocketSpecs.ParseExact | src/tunnel/parser.rs:52-77 | completeness of the ordered choice: every way of writing a host and port is consumed exactly and becomes their normal form |
| SocketSpecs.ParseSound | src/tunnel/parser.rs:52-77 | soundness: what is consumed writes the host and the 16-bit port that the result is the normal form of |
| SocketSpecs.ProducedIffNormal | src/tunnel/parser.rs:52-77 | the specifications that parsing can produce are exactly the normal forms |
| SocketSpecs.FixedPoint | src/tunnel.rs:70-74 | a printed specification parses to itself with nothing left over, so normalisation is idempotent |
| SocketSpecs.NormalParses | src/tunnel/parser.rs:75-77 | this holds of every normal form before any text that does not start with a digit |
| SocketSpecs.TupleOfParsed | src/tunnel.rs:24-32 | splitting any parsed specification never panics and gives the host without brackets and the port that the accepted text wrote |
| SocketSpecs.FromStrIff | src/tunnel.rs:43-68 | a string is accepted as a specification if and only if it writes one, followed by white space only |
| Text.RightSplitOnceExact | src/tunnel.rs:26-26 | the split is at the last colon |
| Text.ValueDecimal | src/tunnel/parser.rs:54-54 | printing a number and evaluating its digits is the identity |
| Text.DecimalShort | src/tunnel/parser.rs:54-54 | no leading zeros are printed |
| Text.Alphabets | src/tunnel/parser.rs:19-39 | the characters of each class, spelled out |
| SocketSpecs.NumberRanges | src/tunnel/parser.rs:15-17 | a number alone is a specification exactly if it is below 65536, and an octet exactly if it is below 256 |
| SocketSpecs.WhitespaceListed | src/tunnel.rs:58-58 | the characters that may follow a specification, spelled out |
| Tunnels.StrategyNames | src/state/strategy.rs:33-49 | exactly these names are read, each as its strategy: the words of the strategy, in any case, all joined by hyphens, by underscores or by nothing |
| Tunnels.StrategyPrinted | src/state/strategy.rs:51-59 | a strategy is printed as its full words joined by hyphens |
| Tunnels.StrategyRoundTrip | src/state/strategy.rs:33-59 | every printed strategy is read back |
| Tunnels.LowerIgnoresCase | src/tunnel/parser.rs:97-97 | names are compared up to the case of letters and nothing else |
| Text.ParseUnsignedIff | src/tunnel/parser.rs:99-101 | a number is read exactly from digits of its value, within bounds, with or without a plus sign |
| Tunnels.FillOptions | src/tunnel/parser.rs:94-108 | the loop over the items computes the fold whose properties the next two rows state |
| Tunnels.OptionsAccepted | src/tunnel/parser.rs:96-106 | a list of options is accepted if and only if every item names an option and has a value of its type: a name of a strategy, a number of 16 or 64 bits, a float, true or false |
| Tunnels.OptionsLastWins | src/tunnel/parser.rs:96-106 | every option gets what the last value listed for it says, and its default if none is listed |
| Tunnels.ItemsExact | src/tunnel/parser.rs:86-93 | every list of name=value items is read up to the closing bracket, whole and in order |
| Tunnels.ItemsSound | src/tunnel/parser.rs:86-93 | what is read as a list of items writes them, and nothing is skipped |
| Notation.ListExact | src/tunnel/parser.rs:116-117 | every comma-separated list of specifications, normal or not, is read whole and in order |
| Notation.ListSound | src/tunnel/parser.rs:116-117 | what is consumed as a list writes the specifications returned |
| Notation.TunnelIff | src/tunnel/parser.rs:79-127 | a string is accepted as a tunnel if and only if it writes that local specification, an equals sign, that list of remotes and, in brackets or absent, valid items that set those options |
| Tunnels.SpecsParse | src/tunnel.rs:162-174 | a printed list of remotes is read back up to what follows it |
| Tunnels.TunnelParses | src/tunnel/parser.rs:111-127 | a printed tunnel is read back up to what follows it, which alone decides about the options |
| Tunnels.TunnelWithOptions | src/tunnel/parser.rs:79-127 | followed by any list of items in brackets it is read with the options these set, or rejected for good if one of them is invalid |
| Tunnels.Display | src/tunnel.rs:162-174 | the formatter's loop prints the local socket, an equals sign and the remotes separated by commas |
| Tunnels.PrintThenParse | src/tunnel.rs:162-189 | printing then parsing is the identity on local socket and remotes, options aside, if and only if there is a remote |
| Tunnels.ParseThenPrint | src/tunnel.rs:162-189 | whatever was parsed once is parsed again from its printed form |
| IndexMaps.SwapRemovedAt | src/state.rs:188-192 | removal puts the last entry into the place of the removed one and moves no other |
| IndexMaps.SwapRemoved | src/state.rs:188-192 | it removes exactly that key and keeps the keys distinct |
| IndexMaps.InsertNew | src/state.rs:173-174 | inserting a new key appends it and keeps the rest |
| TunnelInfos.Load | src/state/strategy.rs:99-99 | the compared load is the number of open and pending streams if that fits a 64-bit register, and congruent to it in any case |
| TunnelInfos.MinimumOpenConnectionsSelect | src/state/strategy.rs:92-111 | the loop returns the leftmost index of least load, for every register contents; where all fit, the leftmost with fewest open and pending streams |
| TunnelInfos.SelectRemote | src/state/info.rs:89-104 | an index that the strategy allows, and none if and only if there is no live remote |
| Views.TellRemoteView | src/state.rs:216-227 | a report changes the record of that remote alone, and only while it is live |
| Views.SelectView | src/state.rs:83-100 | selection yields a live key and makes one more stream pending there, nowhere else |
| Views.AddRemoteView | src/state.rs:159-176 | adding fails exactly for a remote that is there, live or dead, and otherwise adds it live with an empty record |
| Views.RemoveRemoteView | src/state.rs:178-193 | removing fails exactly for a remote that is not there, and otherwise removes it, live or dead, and nothing else |
| Views.FailRemoteView | src/state.rs:229-265 | an error counts on a live remote only, and moves it with its record to the dead ones exactly when it reaches the limit |
| Views.RecoverRemoteView | src/state.rs:289-303 | a successful probe moves a dead remote back with its record, its errors in a row reset |
| Views.FailProbeView | src/state.rs:305-318 | a failed probe counts on a dead remote and gives it the new probe; a remote that is not dead is left alone |
| Views.InsertAllView | src/state/info.rs:70-85 | a new tunnel lists each of its remotes once, live and with an empty record |
| States.State.AddTunnel | src/state.rs:113-133 | fails exactly if the tunnel exists; otherwise adds the new record and changes nothing else |
| States.State.RemoveTunnel | src/state.rs:135-157 | removes the record and aborts the probes its dead remotes name |
| States.State.AddRemoteToTunnel | src/state.rs:159-176 | the new state and both errors |
| States.State.RemoveRemoteFromTunnel | src/state.rs:178-193 | the new state, the record handed back, and both errors |
| States.State.SelectRemote | src/state.rs:83-100 | a live remote that the strategy allows and the options, with the index remembered and the stream pending; an error, and no change, exactly when the tunnel is gone or has no live remote |
| States.State.ClientConnected | src/state.rs:210-214 | the client is counted in an open tunnel |
| States.State.RemoteConnected | src/state.rs:216-227 | all four statistics of a live remote are updated, those of a dead one are not |
| States.State.RemoteError | src/state.rs:229-265 | the error and, exactly if it kills the remote, one new probe whose handle the dead entry holds |
| States.State.CheckDead | src/state.rs:267-321 | one more unfinished probe for this tunnel and remote |
| States.State.FinishProbe | src/state.rs:287-319 | what a probe does to the state when its attempt succeeds or fails, and the follow-up probe exactly if the remote is still dead |
| States.State.UpdateTransferred | src/state.rs:324-338 | the bytes are added to the tunnel and, if live, to the remote |
| States.State.ClientDisconnected | src/state.rs:340-355 | the stream is closed on the tunnel and, if reported and live, on the remote |
| Shapes.StepShape | src/state.rs:159-192 | every event keeps live and dead remotes disjoint and free of repetitions |
| Shapes.ClientViews | src/state.rs:83-265 | every event of a client touches the record of the remote it uses and no other |
| Shapes.StepOptions | src/state.rs:98-98 | the options of a tunnel never change and a closed tunnel stays closed |
| Records.ChangeIsGood | src/state/info.rs:168-250 | every change of a record keeps the accounts, the error limit and the failure budget |
| Records.DriftsIff | src/state.rs:223-223 | for one record, which changes make the open or the pending count drift |
| Records.FailureBound | src/state/info.rs:191-196 | the amortised bound follows from the invariant that each connect and recovery pays for a limit of errors |
| Bridges.ClientRec | src/state.rs:216-265 | an event of a client makes one permitted change to every record, the one of the remote it uses and the others |
| Bridges.ProbeRec | src/state.rs:287-319 | so does the end of a probe |
| Accounts.StepRec | src/state.rs:159-193 | after any event a record is the old one, changed once, or a new one |
| Accounts.CountsDriftIff | src/state.rs:216-265 | the open count parts from the streams through a record exactly in a connect or disconnect that finds it dead though given, or live though not given; the pending count likewise in a connect or refusal |
| Runs.RunInvariant | src/state.rs:83-355 | every run keeps the conjunction of all invariants |
| Runs.ExactAccounts | src/state.rs:216-265 | in every reachable state pending = connecting + resolutions that found it dead - stray resolutions, and open = streaming + disconnects that found it dead + stray connects - connects that found it dead - stray disconnects |
| Runs.CarefulAccounts | src/state.rs:340-355 | if no remote is added again under an earlier client, the stray terms vanish, pending is exact if and only if no resolution found the remote dead, and open if and only if as many disconnects as connects did |
| Runs.PendingToResolve | src/state/info.rs:190-200 | in such runs the pending decrement of a live remote never underflows |
| Runs.OpenToClose | src/state/info.rs:244-245 | nor does the open decrement, unless a connect found the remote dead |
| Runs.ExactUnlessDead | src/state.rs:216-355 | in such runs both counts of a remote that never died equal the clients connecting to it and streaming through it |
| Runs.LiveUnderLimit | src/state.rs:236-262 | a remote is live if and only if its errors in a row are below max(1, limit), and none is both live and dead |
| Runs.MembershipByCommand | src/state.rs:159-193 | the set of remotes, live or dead, changes by add and remove only, and exactly by that key |
| Histories.StatisticsAreTrue | src/state/info.rs:176-242 | over every run the statistics of a remote are counts over what happened to it since it was added: connects, failed attempts, failed probes, recoveries and bytes, read off the events and the states in which they occur |
| Histories.FailuresBounded | src/state.rs:239-262 | of these, the client errors are at most max(1, limit) * (1 + connects + recoveries) |
| Histories.FailuresAreProbes | src/state.rs:305-306 | the tunnel's errors that are not its clients' are the failed probes of the run |
| Runs.DeadAreWatched | src/state.rs:245-321 | every dead remote holds the handle of an unfinished probe for this tunnel and remote, even while older detached probes run |
| Probes.StepWatches | src/state.rs:283-321 | every event keeps that |
| Probes.OthersMay | src/state.rs:267-321 | the probes of other tunnels start and end in any way during a run |
| Probes.OthersMayNot | src/state.rs:267-321 | but nothing that happens to other tunnels starts or ends a probe of this one |
| Probes.AbortsNamed | src/state.rs:135-146 | exactly the running probes that a dead remote names are aborted |
| Probes.CloseAborts | src/state.rs:135-146 | closing a tunnel aborts the probe of every dead remote |
| Lifecycles.SelectionOutcome | src/state/info.rs:89-104 | a selection fails if and only if the tunnel is gone or has no live remote |
| Lifecycles.SelectionPends | src/state.rs:83-100 | a successful one is of a live remote, where exactly one more stream is pending |
| Lifecycles.MovesBounded | src/lib.rs:112-169 | in no run, however long, does a client perform more than 2 * retries + 5 events, transfers aside |
| Lifecycles.LastRetry | src/lib.rs:112-172 | a client with no retries left only disconnects |
| Lifecycles.NeverStuck | src/lib.rs:109-173 | a client that has not ended can go on, whatever attempts and selections come to |
| Runs.RetriesAreOptions | src/state.rs:102-109 | no client of an open tunnel has selected more remotes than its options allow |
| Runs.ClientsAreOrderly | src/lib.rs:110-173 | in every reachable state: selections are at most the retries, each is resolved once before the next, and a client that ended reported a remote exactly if it connected to it |
| Totals.StepTotals | src/state/info.rs:106-149 | every event keeps the tunnel's totals equal to what its clients and probes did |
| Runs.TotalsAreClients | src/state/info.rs:106-149 | in every reachable state the clients counted, the open streams, the errors and the bytes of a tunnel are those of its clients (and failed probes) |
| Runs.OpenStreamsNeverUnderflow | src/state/info.rs:119-120 | so the decrement of the tunnel's open streams never underflows |
| Runs.TotalsDominate | src/state.rs:324-338 | sums over live and dead remotes of bytes, errors and connections never exceed the tunnel's |
| Totals.FailSum | src/state.rs:243-262 | a remote that dies takes its statistics along, with this error counted once |
| Totals.RecoverSum | src/state.rs:291-303 | a remote that recovers loses none of them |
| Totals.ConnectionsCounted | src/lib.rs:122-147 | a client connects at most once, so remotes count at most as many connections as the tunnel has clients |
| Runs.BytesAreReports | src/aio.rs:270-280 | over any run the bytes a client sent and received are the sums of its progress reports |
| Strays.StepStrays | src/state.rs:216-227 | while remotes are added again only when free, every client in flight holds the current record of its remote |
| Underflows.OpenUnderflows | src/state.rs:340-355 | for every error limit and without adding any remote again, a run after which the open count of a remote is negative: its connect was not counted because the remote was dead, its disconnect is |
| Underflows.OpenUnderflowsIff | src/state.rs:216-355 | with given options the open count of a remote can fall below zero if and only if a client may try to connect at all |
| Underflows.PendingUnderflows | src/state.rs:216-227 | a run after which the pending count of a remote is negative: it was removed and added again in between |
| Underflows.PendingUnderflowsIff | src/state.rs:159-227 | the pending count can, if and only if a client may try to connect at all |
| Underflows.PendingNeverBelowZero | src/state/info.rs:190-200 | and never while remotes are added again only when free |
| Balancing.SelectKeepsEvenIff | src/state/strategy.rs:92-111 | choosing a least loaded remote keeps loads within one of each other if and only if it is the only one or its register has room |
| Balancing.LoadsKept | src/state/info.rs:188-190 | connects and all else but selections, errors, departures and commands keep the open and pending streams of every remote |
| Balancing.RunStaysEven | src/state/strategy.rs:92-111 | over any run of selections and connects for which some register has room, the open and pending streams of the remotes stay within one of each other |
| Orders.TellOrder | src/state.rs:216-227 | reports to a remote keep the order of the live and of the dead remotes |
| Orders.SelectOrder | src/state/info.rs:89-104 | and so does a selection |
| Orders.AddOrder | src/state.rs:159-176 | an added remote becomes the last live one |
| Orders.RemoveOrder | src/state.rs:178-193 | the last remote of the list takes the place of a removed one |
| Orders.FailOrder | src/state.rs:236-262 | the last live remote takes the place of one that dies, which becomes the last dead one; any other error keeps the order |
| Orders.RecoverOrder | src/state.rs:287-303 | the last dead remote takes the place of one that recovers, which becomes the last live one |
| Orders.NewTunnelOrder | src/state/info.rs:70-85 | a new tunnel has its remotes in the order given, each where it is named first, and round robin begins with the first |
| Balancing.ChoicesCycle | src/state/strategy.rs:79-87 | over any run with the same remotes round robin goes through them cyclically from the one that follows the last selected index in this sense |
| TunnelInfos.RoundRobinSelect | src/state/strategy.rs:79-87 | the first remote when none was selected before, else one more than the last index, less whole laps around the present list, however stale that index is |
| Balancing.CountInCycle | src/state/strategy.rs:79-87 | how often exactly each remote is chosen in k selections |
| Balancing.RoundRobinIsFair | src/state/info.rs:89-104 | over any k selections with the same n remotes each is chosen k / n times, rounded down or up, however other events interleave |
| Schedules.AnyRunMeanwhile | src/lib.rs:101-176 | whatever run of events of others is possible, some block of a schedule is it |
| Processes.Runtime.Others | src/lib.rs:101-176 | in between the other tasks perform the next block of the schedule, as far as it is possible, and no event of this client |
| Processes.Runtime.CopyBetween | src/aio.rs:248-282 | relaying reports to the state exactly the bytes written to either side, and goes on being polled until it is ready |
| Processes.Runtime.Attempt | src/lib.rs:113-161 | one round selects a remote and relays if and only if the connection attempt succeeds, and otherwise reports the error |
| Processes.Runtime.Attempts | src/lib.rs:112-169 | the retry loop ends with no retries left, with a failed selection, or with a relay to the remote it then reports, after exactly the refusals that the answers to its attempts are |
| Processes.Runtime.ProcessSocket | src/lib.rs:101-176 | for every schedule of the others the run goes on with exactly the next blocks of it and one event of this client after each; the client ends orderly (or is still relaying) and is charged with exactly the bytes written; without a close signal a finished relay has delivered both streams |
| Schedules.OwnEventsAreMine | src/lib.rs:101-176 | in such a continuation the events of the client are the ones its process performed, in that order |
| Processes.Runtime.AddRemote | src/state.rs:159-176 | adding a remote is the event Add of the run, and succeeds exactly for an open tunnel that does not have it |
| Processes.Runtime.RemoveRemote | src/state.rs:178-193 | removing one is the event Remove, and succeeds exactly for an open tunnel that has it |
| Processes.Runtime.FinishProbe | src/state.rs:287-319 | the end of a probe of this tunnel is the event ProbeEnds of the run |
| Processes.Runtime.StopTunnel | src/lib.rs:185-191 | closing is an event of the run after which no probe of a then dead remote goes on |
| Processes.StartTunnel | src/lib.rs:193-211 | opening a tunnel begins a run, so that all that holds of runs holds from here on |

## Left out

- Sockets, TLS, timers and the tokio runtime (`connect_remote`, `src/state/tls.rs`): a connection attempt succeeds or fails as the environment decides.
- Wakers and fairness: the relay records which polls returned Pending, not who is woken; liveness is not claimed.
- The relay's buffer copy is one method in the source (src/aio.rs:98-166) and several here, and so is the client's program (src/lib.rs:101-176); the read and the write side of a connection are two objects, because one direction reads what the other writes; streams start with nothing read or written, and bytes exchanged before (a TLS handshake) are not counted.
- The close signal may be raised by the environment at any moment; that closing a tunnel raises it (src/lib.rs:187) and that the accept loop then ends (src/lib.rs:214-244) is not modelled.
- Processes.Runtime.CopyBetween: the relay's reports reach the shared state after its polls and in any interleaving, not from inside each poll; the relay itself never reads that state.
- Processes.Runtime.ProcessSocket: `polls` bounds how often the relay is polled, and a relay that is still Pending then is returned as such.
- One tunnel at a time: a run begins when the tunnel is opened, with no client of an earlier tunnel of the same name in flight (its probes may be); the check and the insertion of `add_tunnel` are one step, as if no other task opened the same tunnel between them.
- `streams_open` and `streams_pending` of a remote are integers and may be negative; a debug build panics there and a release build wraps, which is how the load comparison sees them (`TunnelInfos.Load`). Totals that only grow are unbounded.
- `last_error_time` and all other clock readings; floating-point option values are kept as the text they were written in, and which texts are floating-point numbers is a parameter.
- The static that holds default options (src/tunnel.rs:116-140) is a parameter of the parser; the quality of random numbers is not modelled, `Random` may choose any index.
- Printing `TunnelOptions` (src/tunnel.rs:142-153): it omits fields and writes a space that the option grammar rejects, so there is nothing to read back. The payload of parse errors is not modelled.
- OpenTelemetry metrics: they duplicate the statistics (and src/state/info.rs:146 adds received bytes to the counter of sent ones).
- The command line, the line protocol, JSON-RPC and the read-only getters of `State` are not modelled.
