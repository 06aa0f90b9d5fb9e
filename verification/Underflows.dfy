/** When a counter of a remote can fall below zero.  In one family of runs a connect
    is not counted because the remote is dead at that moment, but the disconnect is;
    in another a remote is added again under a client that was given its earlier
    record.  Both are there for all options that let a client connect at all, and
    for no others. */
module Underflows {
  import opened Wrappers
  import opened SocketSpecs
  import opened Tunnels
  import opened IndexMaps
  import opened TunnelInfos
  import opened States
  import opened Views
  import opened Machine
  import opened Shapes
  import opened Records
  import opened Bridges
  import opened Lifecycles
  import opened Runs

  /** The tunnel as opened with one remote. */
  function Opened(local: SocketSpec, key: SocketSpec, options: TunnelOptions): (w: World) {
    World(local, Some(TunnelInfo(0, 0, 0, 0, 0, [Entry(key, NEW_REMOTE)], [], options, None)), [], [], map[key := NewBook(0)], 1, 0)
  }

  lemma OpenedIsReachable(local: SocketSpec, key: SocketSpec, options: TunnelOptions)
    ensures CarefullyReachable(Opened(local, key, options))
  {
    var w := Opened(local, key, options);
    var none: IndexMap<RemoteInfo> := [];
    assert [key][1..] == [] && Insert(none, key, NEW_REMOTE) == [Entry(key, NEW_REMOTE)];
    assert InsertAll(none, [key]) == InsertAll(Insert(none, key, NEW_REMOTE), []);
    assert w.tun == Some(NewTunnel([key], options));
    assert w.tun.value.remotes[0].key == key;
    assert Initial(w);
    assert CanRun(w, []) && CarefulRun(w, []) && Run(w, []) == w;
  }

  /** A client that has selected once. */
  function Doing(pc: Pc, retries: nat, connected: Option<SocketSpec>): (c: Client) {
    Client(pc, retries, 1, if pc.Choosing? then 1 else 0, connected, None, 0, 0)
  }

  lemma Arrives(w: World, ti: TunnelInfo)
    requires CarefullyReachable(w) && w.tun == Some(ti)
    ensures var n := ti.options.remoteConnectRetries;
            CarefullyReachable(w.(clients := w.clients + [Client(Choosing(n), n, 0, 0, None, None, 0, 0)],
                                  tun := Some(CountClient(ti))))
  {
    hide CarefullyReachable;
    var (c, n) := (|w.clients|, ti.options.remoteConnectRetries);
    var w1 := Step(w, Arrive);
    CarefulStep(w, Arrive);
    var w2 := Step(w1, CountIn(c));
    CarefulStep(w1, CountIn(c));
    CarefulStep(w2, ReadRetries(c));
    assert Step(w2, ReadRetries(c)) == w.(clients := w.clients + [Client(Choosing(n), n, 0, 0, None, None, 0, 0)],
                                          tun := Some(CountClient(ti)));
  }

  lemma Selects(w: World, c: nat, key: SocketSpec, info: RemoteInfo, ti: TunnelInfo)
    requires CarefullyReachable(w) && w.tun == Some(ti) && ti.remotes == [Entry(key, info)] && key in w.books
    requires c < |w.clients| && w.clients[c].pc.Choosing? && w.clients[c].pc.left > 0
    ensures var client := w.clients[c];
            CarefullyReachable(w.(clients := w.clients[c := client.(
                                    pc := Connecting(client.pc.left, key, w.books[key].id, ti.options.options.errorsTillDead),
                                    selections := client.selections + 1)],
                                  tun := Some(ti.(remotes := [Entry(key, info.NewPendingStream())], lastSelectedIndex := Some(0)))))
  {
    hide CarefullyReachable;
    assert MayChoose(ti, 0);
    CarefulStep(w, SelectOk(c, 0));
    assert ti.remotes[0 := Entry(key, info.NewPendingStream())] == [Entry(key, info.NewPendingStream())];
  }

  /** A client that arrives while the only remote is live can select it. */
  lemma ArriveAndSelect(w: World, key: SocketSpec, info: RemoteInfo, ti: TunnelInfo)
    requires CarefullyReachable(w) && w.tun == Some(ti) && ti.remotes == [Entry(key, info)] && key in w.books
    requires ti.options.remoteConnectRetries > 0
    ensures var (n, till) := (ti.options.remoteConnectRetries, ti.options.options.errorsTillDead);
            CarefullyReachable(w.(
              clients := w.clients + [Doing(Connecting(n, key, w.books[key].id, till), n, None)],
              tun := Some(ti.(totalConnections := ti.totalConnections + 1, streamsOpen := ti.streamsOpen + 1,
                              remotes := [Entry(key, info.NewPendingStream())], lastSelectedIndex := Some(0)))))
  {
    var (c, n) := (|w.clients|, ti.options.remoteConnectRetries);
    Arrives(w, ti);
    hide CarefullyReachable;
    var w' := w.(clients := w.clients + [Client(Choosing(n), n, 0, 0, None, None, 0, 0)], tun := Some(CountClient(ti)));
    Selects(w', c, key, info, CountClient(ti));
  }

  // ---------------------------------------------------------- the open count

  /** Clients that were refused once each. */
  function Refused1(retries: nat, k: nat): (clients: seq<Client>)
    requires retries > 0
    ensures |clients| == k
  {
    if k == 0 then [] else Refused1(retries, k - 1) + [Doing(Choosing(retries - 1), retries, None)]
  }

  /** The record of a remote with one pending stream after `k` errors. */
  function After(k: nat): (info: RemoteInfo) {
    NEW_REMOTE.(streamsPending := 1, numErrors := k, totalErrors := k)
  }

  /** The first client has selected the only remote and is at `pc`, and `k` others
      have selected it since and were refused. */
  function Served(local: SocketSpec, key: SocketSpec, options: TunnelOptions, k: nat, pc: Pc,
                  live: IndexMap<RemoteInfo>, dead: IndexMap<DeadRemote>, probes: seq<Probe>, book: Book): (w: World)
    requires options.remoteConnectRetries > 0
  {
    var n := options.remoteConnectRetries;
    World(local, Some(TunnelInfo(0, 0, k + 1, k + 1, k, live, dead, options, Some(0))), probes,
          [Doing(pc, n, if pc.Streaming? then Some(key) else None)] + Refused1(n, k), map[key := book], 1, 0)
  }

  function Waits(key: SocketSpec, options: TunnelOptions): (pc: Pc) {
    Connecting(options.remoteConnectRetries, key, 0, options.options.errorsTillDead)
  }

  /** The remote is still live. */
  function StillLive(local: SocketSpec, key: SocketSpec, options: TunnelOptions, k: nat): (w: World)
    requires options.remoteConnectRetries > 0
  {
    Served(local, key, options, k, Waits(key, options), [Entry(key, After(k))], [], [], NewBook(0).(absorbed := k))
  }

  /** The last refusal was one too many. */
  function NowDead(local: SocketSpec, key: SocketSpec, options: TunnelOptions, k: nat, pc: Pc, book: Book): (w: World)
    requires options.remoteConnectRetries > 0
  {
    Served(local, key, options, k, pc, [], [Entry(key, DeadRemote(After(k), Some(0)))], [Probe(local, key, Unfinished)], book)
  }

  lemma InsertFirst<V>(key: SocketSpec, value: V)
    ensures var none: IndexMap<V> := []; Insert(none, key, value) == [Entry(key, value)]
  {
  }

  /** The state in which one more client is about to be refused. */
  function Asking(local: SocketSpec, key: SocketSpec, options: TunnelOptions, k: nat): (w: World)
    requires options.remoteConnectRetries > 0
  {
    var (w, n) := (StillLive(local, key, options, k), options.remoteConnectRetries);
    w.(clients := w.clients + [Doing(Waits(key, options), n, None)],
       tun := Some(w.tun.value.(totalConnections := k + 2, streamsOpen := k + 2,
                                remotes := [Entry(key, After(k).NewPendingStream())])))
  }

  lemma OneMoreRefused(local: SocketSpec, key: SocketSpec, options: TunnelOptions, k: nat)
    requires options.remoteConnectRetries > 0
    ensures var w := Asking(local, key, options, k);
            && Enabled(w, Refused(k + 1))
            && Step(w, Refused(k + 1)) == if k + 1 < options.options.errorsTillDead
                                          then StillLive(local, key, options, k + 1)
                                          else NowDead(local, key, options, k + 1, Waits(key, options), NewBook(0).(absorbed := k + 1))
  {
    var (w, n) := (Asking(local, key, options, k), options.remoteConnectRetries);
    var w' := Step(w, Refused(k + 1));
    assert w.clients[k + 1] == Doing(Waits(key, options), n, None);
    assert w'.clients == [Doing(Waits(key, options), n, None)] + Refused1(n, k + 1);
    assert SwapRemove(w.tun.value.remotes, 0) == [];
    InsertFirst(key, DeadRemote(After(k + 1), Some(0)));
    assert w.tun.value.remotes[0 := Entry(key, After(k + 1))] == [Entry(key, After(k + 1))];
  }

  lemma FirstSelects(local: SocketSpec, key: SocketSpec, options: TunnelOptions)
    requires options.remoteConnectRetries > 0
    ensures CarefullyReachable(StillLive(local, key, options, 0))
  {
    var (w0, w, n) := (Opened(local, key, options), StillLive(local, key, options, 0), options.remoteConnectRetries);
    OpenedIsReachable(local, key, options);
    ArriveAndSelect(w0, key, NEW_REMOTE, w0.tun.value);
    hide CarefullyReachable;
    assert w.clients == w0.clients + [Doing(Waits(key, options), n, None)];
    assert w.tun.value.remotes == [Entry(key, NEW_REMOTE.NewPendingStream())];
  }

  /** One client after the other is refused while the first is still connecting. */
  lemma {:induction false} ManyRefused(local: SocketSpec, key: SocketSpec, options: TunnelOptions, k: nat)
    requires options.remoteConnectRetries > 0 && (k == 0 || k < options.options.errorsTillDead)
    ensures CarefullyReachable(Asking(local, key, options, k))
  {
    hide CarefullyReachable, Enabled, Step, Asking, StillLive, NowDead;
    if k == 0 {
      FirstSelects(local, key, options);
    } else {
      ManyRefused(local, key, options, k - 1);
      NotLast(local, key, options, k - 1);
    }
    NextAsks(local, key, options, k);
  }

  lemma NotLast(local: SocketSpec, key: SocketSpec, options: TunnelOptions, k: nat)
    requires options.remoteConnectRetries > 0 && k + 1 < options.options.errorsTillDead
    requires CarefullyReachable(Asking(local, key, options, k))
    ensures CarefullyReachable(StillLive(local, key, options, k + 1))
  {
    hide CarefullyReachable, Enabled, Step, Asking, StillLive, NowDead;
    OneMoreRefused(local, key, options, k);
    CarefulStep(Asking(local, key, options, k), Refused(k + 1));
  }

  lemma NextAsks(local: SocketSpec, key: SocketSpec, options: TunnelOptions, k: nat)
    requires options.remoteConnectRetries > 0 && CarefullyReachable(StillLive(local, key, options, k))
    ensures CarefullyReachable(Asking(local, key, options, k))
  {
    hide CarefullyReachable;
    var w := StillLive(local, key, options, k);
    ArriveAndSelect(w, key, After(k), w.tun.value);
  }

  /** Enough of them are refused for the remote to die, and then the first connects. */
  lemma RefusedThenConnects(local: SocketSpec, key: SocketSpec, options: TunnelOptions)
    requires options.remoteConnectRetries > 0
    ensures var m := Limit(options.options.errorsTillDead);
            CarefullyReachable(NowDead(local, key, options, m, Streaming(key, 0),
                                       NewBook(0).(absorbed := m, resolvedDead := 1, connectedDead := 1)))
  {
    hide CarefullyReachable;
    var m := Limit(options.options.errorsTillDead);
    ManyRefused(local, key, options, m - 1);
    OneMoreRefused(local, key, options, m - 1);
    CarefulStep(Asking(local, key, options, m - 1), Refused(m));
    ConnectsToDead(local, key, options, m);
    CarefulStep(NowDead(local, key, options, m, Waits(key, options), NewBook(0).(absorbed := m)), Connects(0));
  }

  lemma ConnectsToDead(local: SocketSpec, key: SocketSpec, options: TunnelOptions, m: nat)
    requires options.remoteConnectRetries > 0
    ensures var w := NowDead(local, key, options, m, Waits(key, options), NewBook(0).(absorbed := m));
            && Enabled(w, Connects(0))
            && Step(w, Connects(0)) == NowDead(local, key, options, m, Streaming(key, 0),
                                               NewBook(0).(absorbed := m, resolvedDead := 1, connectedDead := 1))
  {
    var w := NowDead(local, key, options, m, Waits(key, options), NewBook(0).(absorbed := m));
    var w' := NowDead(local, key, options, m, Streaming(key, 0), NewBook(0).(absorbed := m, resolvedDead := 1, connectedDead := 1));
    assert w.clients[0 := w'.clients[0]] == w'.clients;
  }

  /** Some remote of the tunnel, which has these options, has a negative open count. */
  ghost predicate OpenBelowZero(w: World, options: TunnelOptions) {
    w.tun.Some? && w.tun.value.options == options
    && exists key :: key in Live(w.tun.value) && Live(w.tun.value)[key].streamsOpen < 0
  }

  ghost predicate PendingBelowZero(w: World, options: TunnelOptions) {
    w.tun.Some? && w.tun.value.options == options
    && exists key :: key in Live(w.tun.value) && Live(w.tun.value)[key].streamsPending < 0
  }

  lemma OnlyRemote(ti: TunnelInfo, key: SocketSpec, info: RemoteInfo)
    requires ti.remotes == [Entry(key, info)]
    ensures key in Live(ti) && Live(ti)[key] == info
  {
    assert ti.remotes[0].key == key;
  }

  /** The open count falls below zero, whatever the error limit: as many clients are
      refused by the only remote as kill it, one that selected it before connects all
      the same, the remote recovers, and then that client leaves. */
  lemma OpenUnderflows(local: SocketSpec, key: SocketSpec, options: TunnelOptions) returns (w: World)
    requires options.remoteConnectRetries > 0
    ensures CarefullyReachable(w) && OpenBelowZero(w, options)
  {
    hide CarefullyReachable;
    RefusedThenConnects(local, key, options);
    var m := Limit(options.options.errorsTillDead);
    var w0 := NowDead(local, key, options, m, Streaming(key, 0), NewBook(0).(absorbed := m, resolvedDead := 1, connectedDead := 1));
    var w1 := Step(w0, ProbeEnds(0, true));
    CarefulStep(w0, ProbeEnds(0, true));
    var info := After(m).Recovered();
    assert SwapRemove(w0.tun.value.deadRemotes, 0) == [];
    InsertFirst(key, info);
    assert w1.tun.value.remotes == [Entry(key, info)] && w1.clients == w0.clients;
    w := Step(w1, Leaves(0));
    CarefulStep(w1, Leaves(0));
    assert w.tun.value.remotes == [Entry(key, info.(streamsOpen := -1))];
    OnlyRemote(w.tun.value, key, info.(streamsOpen := -1));
  }

  // ------------------------------------------------------- the pending count

  /** One client is connecting to the first record of a remote that has its second. */
  function Readded(local: SocketSpec, key: SocketSpec, options: TunnelOptions): (w: World) {
    var n := options.remoteConnectRetries;
    World(local, Some(TunnelInfo(0, 0, 1, 1, 0, [Entry(key, NEW_REMOTE)], [], options, Some(0))),
          [], [Doing(Waits(key, options), n, None)], map[key := NewBook(1)], 2, 0)
  }

  lemma RemoveAndAdd(local: SocketSpec, key: SocketSpec, options: TunnelOptions)
    requires options.remoteConnectRetries > 0
    ensures Reachable(Readded(local, key, options))
  {
    var w := StillLive(local, key, options, 0);
    FirstSelects(local, key, options);
    CarefulNoStrays(w);
    hide Reachable, CarefullyReachable;
    ReachableStep(w, Remove(key));
    assert SwapRemove(w.tun.value.remotes, 0) == [];
    InsertFirst(key, NEW_REMOTE);
    assert w.clients == Readded(local, key, options).clients;
    assert Step(Step(w, Remove(key)), Add(key)) == Readded(local, key, options);
    ReachableStep(Step(w, Remove(key)), Add(key));
  }

  /** The pending count falls below zero: the remote is removed and added again while
      a client that was given its first record is connecting to it. */
  lemma PendingUnderflows(local: SocketSpec, key: SocketSpec, options: TunnelOptions) returns (w: World)
    requires options.remoteConnectRetries > 0
    ensures Reachable(w) && PendingBelowZero(w, options)
  {
    hide Reachable;
    RemoveAndAdd(local, key, options);
    w := Step(Readded(local, key, options), Connects(0));
    ReachableStep(Readded(local, key, options), Connects(0));
    assert w.tun.value.remotes == [Entry(key, NEW_REMOTE.RemoteConnected())];
    OnlyRemote(w.tun.value, key, NEW_REMOTE.RemoteConnected());
  }

  // --------------------------------------------------------- and never else

  /** No client has been counted as one that connects or leaves. */
  predicate IsIdle(b: Book) {
    b.resolvedDead == b.connectedDead == b.leftDead == b.strayResolved == b.strayConnected == b.strayLeft == 0
  }

  ghost predicate AllIdle(w: World) {
    forall key | key in w.books :: IsIdle(w.books[key])
  }

  predicate NoRetries(w: World) {
    w.tun.Some? ==> w.tun.value.options.remoteConnectRetries == 0
  }

  lemma NobodySelects(w: World, c: nat)
    requires Invariant(w) && NoRetries(w) && w.tun.Some? && c < |w.clients|
    ensures !w.clients[c].pc.Connecting? && !w.clients[c].pc.Streaming?
  {
    assert Orderly(w.clients[c]) && GivenRetries(w.clients[c], w.tun.value);
  }

  lemma GoneBooks(w: World, e: Event)
    requires Enabled(w, e) && w.tun.None? && w.books.Keys == {}
    ensures Step(w, e).books.Keys == {}
  {
    if IsClientEvent(e) {
      ClientBooks(w, e);
    }
    hide TunnelAfter, ProbesAfter, ClientAfter, BooksAfter, TunnelAfterProbe, ProbesAfterProbe;
  }

  lemma ClientIdle(w: World, e: Event)
    requires IsClientEvent(e) && Enabled(w, e) && !w.clients[e.c].pc.Connecting? && !w.clients[e.c].pc.Streaming?
    ensures Step(w, e).books == w.books
  {
    hide TunnelAfter, ProbesAfter, ClientAfter, MayChoose;
  }

  lemma QuietIdle(w: World, e: Event)
    requires AllIdle(w) && !IsClientEvent(e) && Enabled(w, e)
    ensures AllIdle(Step(w, e))
  {
    hide AddRemote, RemoveRemote, TunnelAfterProbe, ProbesAfterProbe, IsDead, Enabled, AbortAll;
  }

  lemma StepIdle(w: World, e: Event)
    requires Invariant(w) && NoRetries(w) && AllIdle(w) && Enabled(w, e)
    ensures NoRetries(Step(w, e)) && AllIdle(Step(w, e))
  {
    if Step(w, e).tun.Some? {
      StepOptions(w, e);
    }
    assert w.tun.None? ==> w.books.Keys == {};
    if IsClientEvent(e) && w.tun.Some? {
      NobodySelects(w, e.c);
      ClientIdle(w, e);
    }
    hide Invariant, Step, Enabled;
    if w.tun.None? {
      GoneBooks(w, e);
    } else if !IsClientEvent(e) {
      QuietIdle(w, e);
    }
  }

  lemma {:induction false} RunIdle(w: World, es: seq<Event>)
    requires Invariant(w) && NoRetries(w) && AllIdle(w) && CanRun(w, es)
    ensures NoRetries(Run(w, es)) && AllIdle(Run(w, es))
    decreases |es|
  {
    hide Step, Enabled, Invariant, NoRetries, AllIdle;
    if es != [] {
      StepInvariant(w, es[0]);
      StepIdle(w, es[0]);
      RunIdle(Step(w, es[0]), es[1..]);
    }
  }

  lemma InitialIdle(w: World)
    requires Initial(w)
    ensures AllIdle(w)
  {
  }

  lemma IdleCounts(r: Rec, till: nat)
    requires Good(r, till) && IsIdle(r.book)
    ensures r.info.streamsOpen >= 0 && r.info.streamsPending >= 0
  {
  }

  /** Without retries neither count ever falls below zero. */
  lemma NoRetriesNoUnderflow(w: World, options: TunnelOptions)
    requires Reachable(w) && options.remoteConnectRetries == 0
    ensures !OpenBelowZero(w, options) && !PendingBelowZero(w, options)
  {
    if w.tun.Some? && w.tun.value.options == options {
      ReachableIdle(w);
      forall key | key in Live(w.tun.value)
        ensures Live(w.tun.value)[key].streamsOpen >= 0 && Live(w.tun.value)[key].streamsPending >= 0
      {
        ReachableGood(w, key);
        hide Reachable, Good, IsIdle;
        assert IsIdle(w.books[key]);
        IdleCounts(RecOf(w, key), Till(w));
      }
    }
  }

  lemma ReachableIdle(w: World)
    requires Reachable(w) && w.tun.Some? && w.tun.value.options.remoteConnectRetries == 0
    ensures AllIdle(w)
  {
    hide Invariant, Initial, AllIdle;
    var w0, es :| Initial(w0) && CanRun(w0, es) && w == Run(w0, es);
    InitialInvariant(w0);
    InitialIdle(w0);
    RunOptions(w0, es);
    RunIdle(w0, es);
  }

  lemma {:induction false} RunOptions(w: World, es: seq<Event>)
    requires CanRun(w, es) && Run(w, es).tun.Some?
    ensures w.tun.Some? && w.tun.value.options == Run(w, es).tun.value.options
    decreases |es|
  {
    hide Step, Enabled;
    if es != [] {
      RunOptions(Step(w, es[0]), es[1..]);
      StepOptions(w, es[0]);
    }
  }

  /** The open count of some remote can fall below zero, even if no remote is ever
      added again, exactly when the options let a client try at all. */
  lemma OpenUnderflowsIff(options: TunnelOptions)
    ensures (exists w :: CarefullyReachable(w) && OpenBelowZero(w, options)) <==> options.remoteConnectRetries > 0
  {
    hide CarefullyReachable, OpenBelowZero;
    if options.remoteConnectRetries > 0 {
      var w := OpenUnderflows(SocketSpec("127.0.0.1:1"), SocketSpec("127.0.0.1:2"), options);
    } else if w :| CarefullyReachable(w) && OpenBelowZero(w, options) {
      CarefulNoStrays(w);
      NoRetriesNoUnderflow(w, options);
    }
  }

  /** The pending count can, if remotes are added again, exactly then too. */
  lemma PendingUnderflowsIff(options: TunnelOptions)
    ensures (exists w :: Reachable(w) && PendingBelowZero(w, options)) <==> options.remoteConnectRetries > 0
  {
    hide Reachable, PendingBelowZero;
    if options.remoteConnectRetries > 0 {
      var w := PendingUnderflows(SocketSpec("127.0.0.1:1"), SocketSpec("127.0.0.1:2"), options);
    } else if w :| Reachable(w) && PendingBelowZero(w, options) {
      NoRetriesNoUnderflow(w, options);
    }
  }

  /** And in careful runs never. */
  lemma PendingNeverBelowZero(w: World, options: TunnelOptions)
    requires CarefullyReachable(w)
    ensures !PendingBelowZero(w, options)
  {
    if w.tun.Some? {
      forall key | key in Live(w.tun.value)
        ensures Live(w.tun.value)[key].streamsPending >= 0
      {
        CarefulAccounts(w, key);
      }
    }
  }
}
