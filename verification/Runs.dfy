/** What holds in every state that a run of a tunnel can reach, whatever clients,
    probes and commands do and in whatever order. */
module Runs {
  import opened SocketSpecs
  import opened IndexMaps
  import opened TunnelInfos
  import opened States
  import opened Views
  import opened Machine
  import opened Shapes
  import opened Tallies
  import opened Records
  import opened Bridges
  import opened Accounts
  import opened Probes
  import opened Lifecycles
  import opened Totals
  import opened Strays
  import Endpoints

  ghost predicate Invariant(w: World) {
    Shape(w) && AllGood(w) && NoOrphans(w) && AllOrderly(w.clients) && AllGivenRetries(w) && TotalsExact(w) && Dominated(w)
  }

  lemma InitialRecord(w: World, key: SocketSpec)
    requires Initial(w) && Present(w, key)
    ensures IsNew(RecOf(w, key))
  {
    InitialShape(w);
  }

  lemma {:induction false} NewSum(m: IndexMap<RemoteInfo>, f: Field)
    requires forall i | 0 <= i < |m| :: m[i].value == NEW_REMOTE
    ensures LiveSum(m, f) == 0
  {
    if m != [] {
      NewSum(m[..|m| - 1], f);
    }
  }

  lemma InitialSums(w: World)
    requires Initial(w)
    ensures TotalsExact(w) && Dominated(w)
  {
    InitialShape(w);
    var ti := w.tun.value;
    assert ti.deadRemotes == [];
    forall i | 0 <= i < |ti.remotes|
      ensures ti.remotes[i].value == NEW_REMOTE
    {
      At(ti.remotes, i);
    }
    forall f
      ensures RemoteSum(ti, f) == 0
    {
      NewSum(ti.remotes, f);
    }
    hide NewTunnel, RemoteSum, ToMap;
  }

  lemma InitialInvariant(w: World)
    requires Initial(w)
    ensures Invariant(w) && NoStrays(w)
  {
    InitialShape(w);
    InitialSums(w);
    forall key | Present(w, key)
      ensures Good(RecOf(w, key), Till(w))
    {
      InitialRecord(w, key);
      NewIsGood(RecOf(w, key), Till(w));
    }
    hide NewTunnel, Good, ToMap, Tidy, TotalsExact, Dominated, IsNew;
  }

  lemma StepInvariant(w: World, e: Event)
    requires Invariant(w) && Enabled(w, e)
    ensures Invariant(Step(w, e))
  {
    StepShape(w, e);
    StepGood(w, e);
    StepWatches(w, e);
    StepOrderly(w, e);
    StepRetries(w, e);
    StepTotals(w, e);
    StepDominated(w, e);
    hide Step, Enabled, Shape, AllGood, NoOrphans, AllOrderly, AllGivenRetries, TotalsExact, Dominated;
  }

  lemma {:induction false} RunInvariant(w: World, es: seq<Event>)
    requires Invariant(w) && CanRun(w, es)
    ensures Invariant(Run(w, es))
    decreases |es|
  {
    hide Step, Enabled, Invariant;
    if es != [] {
      StepInvariant(w, es[0]);
      RunInvariant(Step(w, es[0]), es[1..]);
    }
  }

  /** Some run from the opening of a tunnel leads to `w`. */
  ghost predicate Reachable(w: World) {
    exists w0, es :: Initial(w0) && CanRun(w0, es) && w == Run(w0, es)
  }

  lemma ReachableInvariant(w: World)
    requires Reachable(w)
    ensures Invariant(w)
  {
    hide Invariant, Initial;
    var w0, es :| Initial(w0) && CanRun(w0, es) && w == Run(w0, es);
    InitialInvariant(w0);
    RunInvariant(w0, es);
  }

  lemma {:induction false} RunAppend(w: World, es: seq<Event>, e: Event)
    requires CanRun(w, es) && Enabled(Run(w, es), e)
    ensures CanRun(w, es + [e]) && Run(w, es + [e]) == Step(Run(w, es), e)
    decreases |es|
  {
    hide Step, Enabled;
    if es == [] {
      assert ([] + [e])[0] == e && ([] + [e])[1..] == [];
    } else {
      assert (es + [e])[0] == es[0] && (es + [e])[1..] == es[1..] + [e];
      RunAppend(Step(w, es[0]), es[1..], e);
    }
  }

  lemma ReachableStep(w: World, e: Event)
    requires Reachable(w) && Enabled(w, e)
    ensures Reachable(Step(w, e))
  {
    hide Step, Enabled, Initial;
    var w0, es :| Initial(w0) && CanRun(w0, es) && w == Run(w0, es);
    RunAppend(w0, es, e);
  }

  // ------------------------------------------------------------ the accounts

  /** The number of clients that are now connecting to, or streaming through, the
      record of a remote that the tunnel now has. */
  ghost function ConnectingNow(w: World, key: SocketSpec): (n: nat)
    requires key in w.books
  {
    Sum(w.clients, ConnectingTo(key, w.books[key].id))
  }

  ghost function StreamingNow(w: World, key: SocketSpec): (n: nat)
    requires key in w.books
  {
    Sum(w.clients, StreamingTo(key, w.books[key].id))
  }

  lemma ReachableGood(w: World, key: SocketSpec)
    requires Reachable(w) && w.tun.Some? && (key in Live(w.tun.value) || key in Dead(w.tun.value))
    ensures Present(w, key) && Good(RecOf(w, key), Till(w)) && Tidy(w.tun.value)
  {
    ReachableInvariant(w);
    AllPresent(w, key);
  }

  /** Every remote's pending and open counts are accounted for to the last unit. */
  lemma ExactAccounts(w: World, key: SocketSpec)
    requires Reachable(w) && w.tun.Some? && (key in Live(w.tun.value) || key in Dead(w.tun.value))
    ensures key in w.books
    ensures var (r, b) := (RecordOf(w.tun.value, key), w.books[key]);
            && r.streamsPending + b.strayResolved == ConnectingNow(w, key) + b.resolvedDead
            && r.streamsOpen + b.connectedDead + b.strayLeft == StreamingNow(w, key) + b.leftDead + b.strayConnected
  {
    ReachableGood(w, key);
  }

  /** A remote is live exactly while it has had fewer errors in a row than the
      limit, and no remote is both live and dead. */
  lemma LiveUnderLimit(w: World, key: SocketSpec)
    requires Reachable(w) && w.tun.Some? && (key in Live(w.tun.value) || key in Dead(w.tun.value))
    ensures key in Live(w.tun.value) <==> RecordOf(w.tun.value, key).numErrors < Limit(Till(w))
    ensures Tidy(w.tun.value)
  {
    ReachableGood(w, key);
  }

  /** Every dead remote is watched by a probe of its own that is still running. */
  lemma DeadAreWatched(w: World, key: SocketSpec)
    requires Reachable(w) && w.tun.Some? && key in Dead(w.tun.value)
    ensures Names(Dead(w.tun.value)[key].joinHandle, w.probes, Probe(w.local, key, Unfinished))
  {
    ReachableInvariant(w);
    assert Watched(Dead(w.tun.value), key, w.local, w.probes);
  }

  /** Only commands change which remotes there are; deaths and recoveries do not. */
  lemma MembershipByCommand(w: World, e: Event)
    requires Reachable(w) && Enabled(w, e) && w.tun.Some? && !e.Close?
    ensures var (w', remotes) := (Step(w, e), Live(w.tun.value).Keys + Dead(w.tun.value).Keys);
            && w'.tun.Some?
            && Live(w'.tun.value).Keys + Dead(w'.tun.value).Keys
               == if e.Add? then remotes + {e.remote} else if e.Remove? then remotes - {e.remote} else remotes
  {
    ReachableInvariant(w);
    StepShape(w, e);
    hide Live, Dead, Tidy, ClientsOk, OldBooks;
    StepMembers(w, e);
  }

  lemma StepMembers(w: World, e: Event)
    requires Shape(w) && Enabled(w, e) && w.tun.Some? && !e.Close?
    ensures Step(w, e).tun.Some?
    ensures Step(w, e).books.Keys
            == if e.Add? then w.books.Keys + {e.remote} else if e.Remove? then w.books.Keys - {e.remote} else w.books.Keys
  {
    if IsClientEvent(e) {
      ClientBooks(w, e);
      ClientOptions(w, e);
    } else if e.Add? {
      AddRemoteView(w.tun.value, e.remote);
    } else if e.Remove? {
      RemoveRemoteView(w.tun.value, e.remote);
    }
    hide Live, Dead, Tidy, ClientsOk, OldBooks, Enabled;
    hide TunnelAfter, BooksAfter, ClientAfter, ProbesAfter, ProbesAfterProbe, AddRemote, RemoveRemote, RecoverRemote, FailProbe;
  }

  // ----------------------------------------------------- clients and totals

  /** No client selects more remotes than its retries; each selection is resolved,
      by a connect or an error, before the next; and a client that has ended reported
      a remote exactly if it connected to that one. */
  lemma ClientsAreOrderly(w: World, c: nat)
    requires Reachable(w) && c < |w.clients|
    ensures var client := w.clients[c];
            && client.selections <= client.retries
            && Resolutions(client) <= client.selections <= Resolutions(client) + 1
            && (Resolutions(client) < client.selections <==> client.pc.Connecting?)
            && (client.pc.Gone? ==> client.reported == client.connected)
            && (client.connected.None? ==> client.sent == 0 && client.received == 0)
  {
    ReachableInvariant(w);
    assert Orderly(w.clients[c]);
  }

  /** Every client of an open tunnel selects at most as many remotes as the tunnel's
      options allow, however they interleave. */
  lemma RetriesAreOptions(w: World, c: nat)
    requires Reachable(w) && w.tun.Some? && c < |w.clients|
    ensures w.clients[c].selections <= w.tun.value.options.remoteConnectRetries
  {
    ReachableInvariant(w);
    assert Orderly(w.clients[c]) && GivenRetries(w.clients[c], w.tun.value);
  }

  /** The totals of an open tunnel are those of its clients: the clients counted in,
      those of them that have not left, their failed connects, to which those of the
      probes are added, and all bytes copied either way. */
  lemma TotalsAreClients(w: World)
    requires Reachable(w) && w.tun.Some?
    ensures var ti := w.tun.value;
            && ti.totalConnections == Sum(w.clients, CountedIn) && ti.streamsOpen == Sum(w.clients, Inside)
            && ti.errors == Sum(w.clients, Refusals) + w.probeFailures
            && ti.bytesSent == Sum(w.clients, Sent) && ti.bytesReceived == Sum(w.clients, Received)
  {
    ReachableInvariant(w);
    assert forall t | IsTotal(t) :: Total(w.tun.value, t) == Sum(w.clients, t) + NotOfClients(w, t);
    assert IsTotal(CountedIn) && IsTotal(Inside) && IsTotal(Refusals) && IsTotal(Sent) && IsTotal(Received);
    assert Total(w.tun.value, Sent) == w.tun.value.bytesSent && Total(w.tun.value, Refusals) == w.tun.value.errors;
    hide Invariant;
  }

  /** A client that leaves an open tunnel finds it with a stream to close. */
  lemma OpenStreamsNeverUnderflow(w: World, c: nat)
    requires Reachable(w) && w.tun.Some? && Enabled(w, Leaves(c))
    ensures w.tun.value.streamsOpen > 0
  {
    TotalsAreClients(w);
    SumMember(w.clients, c, Inside);
  }

  /** No sum over the remotes exceeds what the tunnel has counted. */
  lemma TotalsDominate(w: World)
    requires Reachable(w) && w.tun.Some?
    ensures var ti := w.tun.value;
            && RemoteSum(ti, FieldSent) <= ti.bytesSent && RemoteSum(ti, FieldReceived) <= ti.bytesReceived
            && RemoteSum(ti, FieldErrors) <= ti.errors && RemoteSum(ti, FieldConnections) <= ti.totalConnections
  {
    ReachableInvariant(w);
    ConnectionsCounted(w);
    var ti := w.tun.value;
    assert forall f :: RemoteSum(ti, f) <= Seen(ti, w.clients, f);
    assert Seen(ti, w.clients, FieldSent) == ti.bytesSent && Seen(ti, w.clients, FieldErrors) == ti.errors;
    hide Invariant, RemoteSum;
  }

  /** The arguments of the progress reports of one client in one direction. */
  function Reports(es: seq<Event>, c: nat, sending: bool): (reports: seq<nat>)
    decreases |es|
  {
    if es == [] then []
    else
      (if es[0].Transfers? && es[0].c == c && es[0].sending == sending then [es[0].bytes] else [])
      + Reports(es[1..], c, sending)
  }

  lemma {:induction false} TotalFirst(first: nat, rest: seq<nat>)
    ensures Endpoints.Total([first] + rest) == first + Endpoints.Total(rest)
  {
    var all, last := [first] + rest, |rest| - 1;
    if rest != [] {
      TotalFirst(first, rest[..last]);
      assert all[..|rest|] == [first] + rest[..last] && all[|rest|] == rest[last];
    } else {
      assert all[..0] == [];
    }
  }

  /** What one event moves for one client. */
  function Moved(e: Event, c: nat, sending: bool): (bytes: nat) {
    if e.Transfers? && e.c == c && e.sending == sending then e.bytes else 0
  }

  lemma ReportsFirst(es: seq<Event>, c: nat, sending: bool)
    requires es != []
    ensures Endpoints.Total(Reports(es, c, sending)) == Moved(es[0], c, sending) + Endpoints.Total(Reports(es[1..], c, sending))
  {
    TotalFirst(Moved(es[0], c, sending), Reports(es[1..], c, sending));
    assert [] + Reports(es[1..], c, sending) == Reports(es[1..], c, sending);
  }

  lemma StepMoved(w: World, e: Event, c: nat)
    requires Enabled(w, e) && c < |w.clients|
    ensures c < |Step(w, e).clients|
    ensures Step(w, e).clients[c].sent == w.clients[c].sent + Moved(e, c, true)
    ensures Step(w, e).clients[c].received == w.clients[c].received + Moved(e, c, false)
  {
    if IsClientEvent(e) && e.c == c {
      assert Step(w, e).clients[c] == ClientAfter(w, e);
    } else {
      OthersLeaveClientAlone(w, e, c);
    }
    hide Step, Enabled;
  }

  /** What a client has sent and received is the sum of its progress reports, so
      that with TotalsAreClients the tunnel's bytes are the sum of all of them. */
  lemma {:induction false} BytesAreReports(w: World, es: seq<Event>, c: nat)
    requires CanRun(w, es) && c < |w.clients|
    ensures c < |Run(w, es).clients|
    ensures Run(w, es).clients[c].sent == w.clients[c].sent + Endpoints.Total(Reports(es, c, true))
    ensures Run(w, es).clients[c].received == w.clients[c].received + Endpoints.Total(Reports(es, c, false))
    decreases |es|
  {
    if es != [] {
      StepMoved(w, es[0], c);
      ReportsFirst(es, c, true);
      ReportsFirst(es, c, false);
      hide Step, Enabled, Reports, Moved;
      BytesAreReports(Step(w, es[0]), es[1..], c);
    }
  }

  // ------------------------------------------------------------ careful runs

  /** No remote is added while a client still holds an earlier record of it. */
  ghost predicate CarefulRun(w: World, es: seq<Event>)
    requires CanRun(w, es)
    decreases |es|
  {
    es == [] || (Careful(w, es[0]) && CarefulRun(Step(w, es[0]), es[1..]))
  }

  lemma {:induction false} RunStrays(w: World, es: seq<Event>)
    requires Shape(w) && NoStrays(w) && CanRun(w, es) && CarefulRun(w, es)
    ensures NoStrays(Run(w, es))
    decreases |es|
  {
    hide Step, Enabled, Shape, NoStrays, Careful;
    if es != [] {
      StepShape(w, es[0]);
      StepStrays(w, es[0]);
      RunStrays(Step(w, es[0]), es[1..]);
    }
  }

  /** A careful run leads to `w`. */
  ghost predicate CarefullyReachable(w: World) {
    exists w0, es :: Initial(w0) && CanRun(w0, es) && CarefulRun(w0, es) && w == Run(w0, es)
  }

  lemma {:induction false} CarefulAppend(w: World, es: seq<Event>, e: Event)
    requires CanRun(w, es) && CarefulRun(w, es) && Enabled(Run(w, es), e) && Careful(Run(w, es), e)
    ensures CanRun(w, es + [e]) && CarefulRun(w, es + [e])
    decreases |es|
  {
    RunAppend(w, es, e);
    hide Step, Enabled, Careful;
    if es == [] {
      assert ([] + [e])[0] == e && ([] + [e])[1..] == [];
    } else {
      assert (es + [e])[0] == es[0] && (es + [e])[1..] == es[1..] + [e];
      CarefulAppend(Step(w, es[0]), es[1..], e);
    }
  }

  lemma CarefulStep(w: World, e: Event)
    requires CarefullyReachable(w) && Enabled(w, e) && Careful(w, e)
    ensures CarefullyReachable(Step(w, e))
  {
    hide Step, Enabled, Initial, Careful;
    var w0, es :| Initial(w0) && CanRun(w0, es) && CarefulRun(w0, es) && w == Run(w0, es);
    RunAppend(w0, es, e);
    CarefulAppend(w0, es, e);
  }

  lemma CarefulNoStrays(w: World)
    requires CarefullyReachable(w)
    ensures Reachable(w) && NoStrays(w)
  {
    hide Invariant, Initial, NoStrays, Shape;
    var w0, es :| Initial(w0) && CanRun(w0, es) && CarefulRun(w0, es) && w == Run(w0, es);
    InitialInvariant(w0);
    InitialShape(w0);
    RunStrays(w0, es);
  }

  /** Then the only uncounted events are those that found the remote dead: each
      count is exact if and only if these cancel out. */
  lemma CarefulAccounts(w: World, key: SocketSpec)
    requires CarefullyReachable(w) && w.tun.Some? && (key in Live(w.tun.value) || key in Dead(w.tun.value))
    ensures key in w.books
    ensures var (r, b) := (RecordOf(w.tun.value, key), w.books[key]);
            && r.streamsPending == ConnectingNow(w, key) + b.resolvedDead
            && r.streamsOpen == StreamingNow(w, key) + b.leftDead - b.connectedDead
            && (r.streamsPending == ConnectingNow(w, key) <==> b.resolvedDead == 0)
            && (r.streamsOpen == StreamingNow(w, key) <==> b.leftDead == b.connectedDead)
            && (b.connectedDead == 0 ==> r.streamsOpen >= 0)
  {
    CarefulNoStrays(w);
    ExactAccounts(w, key);
    assert Unstrayed(w.books[key]);
  }

  /** And a client that resolves on a live remote finds a pending stream there. */
  lemma PendingToResolve(w: World, c: nat)
    requires CarefullyReachable(w) && w.tun.Some? && Enabled(w, Connects(c))
    requires w.clients[c].pc.remote in Live(w.tun.value)
    ensures Live(w.tun.value)[w.clients[c].pc.remote].streamsPending > 0
  {
    var key := w.clients[c].pc.remote;
    CarefulNoStrays(w);
    CarefulAccounts(w, key);
    assert HoldsCurrent(w.clients[c], w.books);
    SumMember(w.clients, c, ConnectingTo(key, w.books[key].id));
  }

  /** So does a client that leaves, if no connect found the remote dead. */
  lemma OpenToClose(w: World, c: nat)
    requires CarefullyReachable(w) && w.tun.Some? && Enabled(w, Leaves(c)) && w.clients[c].pc.Streaming?
    requires w.clients[c].pc.remote in Live(w.tun.value) && w.clients[c].pc.remote in w.books
    requires w.books[w.clients[c].pc.remote].connectedDead == 0
    ensures Live(w.tun.value)[w.clients[c].pc.remote].streamsOpen > 0
  {
    var key := w.clients[c].pc.remote;
    CarefulNoStrays(w);
    CarefulAccounts(w, key);
    assert HoldsCurrent(w.clients[c], w.books);
    SumMember(w.clients, c, StreamingTo(key, w.books[key].id));
  }

  // --------------------------------------------------- remotes that never die

  /** The remote is not dead in any state of the run. */
  ghost predicate NeverDead(w: World, es: seq<Event>, key: SocketSpec)
    requires CanRun(w, es)
    decreases |es|
  {
    !IsDead(w, key) && (es == [] || NeverDead(Step(w, es[0]), es[1..], key))
  }

  predicate NoneFoundDead(books: map<SocketSpec, Book>, key: SocketSpec) {
    key in books ==> books[key].resolvedDead == books[key].connectedDead == books[key].leftDead == 0
  }

  lemma StepFoundDead(w: World, e: Event, key: SocketSpec)
    requires Enabled(w, e) && !IsDead(w, key) && NoneFoundDead(w.books, key)
    ensures NoneFoundDead(Step(w, e).books, key)
  {
    if IsClientEvent(e) && key in w.books {
      ClientBook(w, e, key);
    } else if IsClientEvent(e) {
      ClientBooks(w, e);
    }
    hide IsLive, IsDead, AddRemote, RemoveRemote, TunnelAfterProbe, ProbesAfterProbe, TunnelAfter, ProbesAfter, ClientAfter, BooksAfter;
  }

  lemma {:induction false} RunFoundDead(w: World, es: seq<Event>, key: SocketSpec)
    requires CanRun(w, es) && NeverDead(w, es, key) && NoneFoundDead(w.books, key)
    ensures NoneFoundDead(Run(w, es).books, key)
    decreases |es|
  {
    hide Step, Enabled, NoneFoundDead, IsDead;
    if es != [] {
      StepFoundDead(w, es[0], key);
      RunFoundDead(Step(w, es[0]), es[1..], key);
    }
  }

  /** Both counts are exact for a remote that never died. */
  lemma ExactUnlessDead(w: World, es: seq<Event>, key: SocketSpec)
    requires Initial(w) && CanRun(w, es) && CarefulRun(w, es) && NeverDead(w, es, key)
    requires Run(w, es).tun.Some? && key in Live(Run(w, es).tun.value)
    ensures key in Run(w, es).books
    ensures var (w', r) := (Run(w, es), Live(Run(w, es).tun.value)[key]);
            r.streamsPending == ConnectingNow(w', key) && r.streamsOpen == StreamingNow(w', key)
  {
    RunFoundDead(w, es, key);
    hide Initial, CanRun, CarefulRun, NeverDead, Run, Live, Dead;
    assert CarefullyReachable(Run(w, es));
    CarefulAccounts(Run(w, es), key);
  }
}
