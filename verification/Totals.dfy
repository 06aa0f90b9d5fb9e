/** The totals of the tunnel: they agree exactly with what its clients did, and
    they dominate the sums over the records of its remotes. */
module Totals {
  import opened Wrappers
  import opened SocketSpecs
  import opened IndexMaps
  import opened TunnelInfos
  import opened States
  import opened Views
  import opened Machine
  import opened Shapes
  import opened Lifecycles
  import opened Tallies

  // ------------------------------------------------- totals against clients

  /** What the tunnel itself has counted. */
  function Total(ti: TunnelInfo, t: Tally): (n: int) {
    match t
    case CountedIn => ti.totalConnections
    case Inside => ti.streamsOpen
    case Refusals => ti.errors
    case Sent => ti.bytesSent
    case Received => ti.bytesReceived
    case _ => 0
  }

  predicate IsTotal(t: Tally) {
    t.CountedIn? || t.Inside? || t.Refusals? || t.Sent? || t.Received?
  }

  /** Of all that the tunnel counts, only the failed probes are not of its clients. */
  function NotOfClients(w: World, t: Tally): (n: nat) {
    if t.Refusals? then w.probeFailures else 0
  }

  ghost predicate TotalsExact(w: World) {
    w.tun.Some? ==> forall t | IsTotal(t) :: Total(w.tun.value, t) == Sum(w.clients, t) + NotOfClients(w, t)
  }

  lemma ClientTotal(w: World, e: Event, t: Tally)
    requires IsClientEvent(e) && Enabled(w, e) && w.tun.Some? && IsTotal(t)
    ensures TunnelAfter(w, e).Some?
    ensures Total(TunnelAfter(w, e).value, t) - Total(w.tun.value, t)
            == Weigh(ClientAfter(w, e), t) - Weigh(w.clients[e.c], t)
  {
    hide MayChoose, Find, Insert, SwapRemove;
  }

  lemma OtherTotal(w: World, e: Event, t: Tally)
    requires !IsClientEvent(e) && Enabled(w, e) && w.tun.Some? && Step(w, e).tun.Some? && IsTotal(t)
    ensures Total(Step(w, e).tun.value, t) - NotOfClients(Step(w, e), t) == Total(w.tun.value, t) - NotOfClients(w, t)
  {
    hide Find, Insert, SwapRemove, AbortAll;
  }

  lemma StepSum(w: World, e: Event, t: Tally)
    requires Enabled(w, e)
    ensures Sum(Step(w, e).clients, t) == Sum(w.clients, t)
            + (if IsClientEvent(e) then Weigh(ClientAfter(w, e), t) - Weigh(w.clients[e.c], t)
               else if e.Arrive? then Weigh(NEW_CLIENT, t) else 0)
  {
    if IsClientEvent(e) {
      SumUpdate(w.clients, e.c, ClientAfter(w, e), t);
    } else if e.Arrive? {
      SumAppend(w.clients, NEW_CLIENT, t);
    }
    hide Enabled, TunnelAfter, BooksAfter, ProbesAfter, ClientAfter, AddRemote, RemoveRemote, AbortAll;
    hide TunnelAfterProbe, BooksAfterProbe, ProbesAfterProbe, Sum, Weigh;
  }

  lemma StepTotals(w: World, e: Event)
    requires TotalsExact(w) && Enabled(w, e)
    ensures TotalsExact(Step(w, e))
  {
    if Step(w, e).tun.Some? {
      StepOptions(w, e);
      forall t | IsTotal(t)
        ensures Total(Step(w, e).tun.value, t) == Sum(Step(w, e).clients, t) + NotOfClients(Step(w, e), t)
      {
        StepSum(w, e, t);
        if IsClientEvent(e) {
          ClientTotal(w, e, t);
          assert Step(w, e) == ClientStep(w, e);
        } else {
          OtherTotal(w, e, t);
          assert Weigh(NEW_CLIENT, t) == 0;
        }
        hide Enabled, Step, Total, Sum, TunnelAfter, ClientAfter, Weigh;
      }
    }
  }

  // ----------------------------------------------- totals against remotes

  datatype Field = FieldSent | FieldReceived | FieldErrors | FieldConnections

  function Amount(r: RemoteInfo, f: Field): (n: nat) {
    match f
    case FieldSent => r.bytesSent
    case FieldReceived => r.bytesReceived
    case FieldErrors => r.totalErrors
    case FieldConnections => r.totalConnections
  }

  function LiveSum(m: IndexMap<RemoteInfo>, f: Field): (n: nat) {
    if m == [] then 0 else LiveSum(m[..|m| - 1], f) + Amount(m[|m| - 1].value, f)
  }

  function DeadSum(m: IndexMap<DeadRemote>, f: Field): (n: nat) {
    if m == [] then 0 else DeadSum(m[..|m| - 1], f) + Amount(m[|m| - 1].value.remote, f)
  }

  /** Over all the remotes that the tunnel has, live or dead. */
  function RemoteSum(ti: TunnelInfo, f: Field): (n: nat) {
    LiveSum(ti.remotes, f) + DeadSum(ti.deadRemotes, f)
  }

  lemma {:induction false} LiveUpdate(m: IndexMap<RemoteInfo>, i: nat, entry: Entry<RemoteInfo>, f: Field)
    requires i < |m|
    ensures LiveSum(m[i := entry], f) == LiveSum(m, f) - Amount(m[i].value, f) + Amount(entry.value, f)
  {
    var last := |m| - 1;
    if i == last {
      assert m[i := entry][..last] == m[..last];
    } else {
      LiveUpdate(m[..last], i, entry, f);
      assert m[i := entry][..last] == m[..last][i := entry];
    }
  }

  lemma {:induction false} DeadUpdate(m: IndexMap<DeadRemote>, i: nat, entry: Entry<DeadRemote>, f: Field)
    requires i < |m|
    ensures DeadSum(m[i := entry], f) == DeadSum(m, f) - Amount(m[i].value.remote, f) + Amount(entry.value.remote, f)
  {
    var last := |m| - 1;
    if i == last {
      assert m[i := entry][..last] == m[..last];
    } else {
      DeadUpdate(m[..last], i, entry, f);
      assert m[i := entry][..last] == m[..last][i := entry];
    }
  }

  lemma LiveRemove(m: IndexMap<RemoteInfo>, i: nat, f: Field)
    requires i < |m|
    ensures LiveSum(SwapRemove(m, i), f) == LiveSum(m, f) - Amount(m[i].value, f)
  {
    LiveUpdate(m, i, m[|m| - 1], f);
    assert m[i := m[|m| - 1]][|m| - 1] == m[|m| - 1];
  }

  lemma DeadRemove(m: IndexMap<DeadRemote>, i: nat, f: Field)
    requires i < |m|
    ensures DeadSum(SwapRemove(m, i), f) == DeadSum(m, f) - Amount(m[i].value.remote, f)
  {
    DeadUpdate(m, i, m[|m| - 1], f);
    assert m[i := m[|m| - 1]][|m| - 1] == m[|m| - 1];
  }

  lemma LiveInsert(m: IndexMap<RemoteInfo>, key: SocketSpec, r: RemoteInfo, f: Field)
    requires key !in Keys(m)
    ensures LiveSum(Insert(m, key, r), f) == LiveSum(m, f) + Amount(r, f)
  {
    assert (m + [Entry(key, r)])[..|m|] == m;
  }

  lemma DeadInsert(m: IndexMap<DeadRemote>, key: SocketSpec, d: DeadRemote, f: Field)
    requires key !in Keys(m)
    ensures DeadSum(Insert(m, key, d), f) == DeadSum(m, f) + Amount(d.remote, f)
  {
    assert (m + [Entry(key, d)])[..|m|] == m;
  }

  /** What a report adds to a field of a remote's record. */
  function Gain(report: Report, f: Field): (n: nat) {
    match f
    case FieldSent => if report.Transfer? && report.sent then report.bytes else 0
    case FieldReceived => if report.Transfer? && !report.sent then report.bytes else 0
    case FieldErrors => 0
    case FieldConnections => if report.Connect? then 1 else 0
  }

  lemma TellSum(ti: TunnelInfo, key: SocketSpec, report: Report, f: Field)
    ensures RemoteSum(TellRemote(ti, key, report), f) == RemoteSum(ti, f) + if key in Keys(ti.remotes) then Gain(report, f) else 0
  {
    var at := Find(ti.remotes, key);
    if at.Some? {
      LiveUpdate(ti.remotes, at.value, Entry(key, Reported(ti.remotes[at.value].value, report)), f);
    }
  }

  lemma SelectSum(ti: TunnelInfo, idx: nat, f: Field)
    requires idx < |ti.remotes|
    ensures RemoteSum(Select(ti, idx), f) == RemoteSum(ti, f)
  {
    LiveUpdate(ti.remotes, idx, Entry(ti.remotes[idx].key, ti.remotes[idx].value.NewPendingStream()), f);
  }

  function Errors(f: Field): (n: nat) {
    if f.FieldErrors? then 1 else 0
  }

  /** A move between the live and the dead remotes loses nothing. */
  lemma FailSum(ti: TunnelInfo, key: SocketSpec, till: nat, probe: nat, f: Field)
    requires Tidy(ti)
    ensures RemoteSum(FailRemote(ti, key, till, probe), f) == RemoteSum(ti, f) + if key in Keys(ti.remotes) then Errors(f) else 0
  {
    var at := Find(ti.remotes, key);
    if at.Some? {
      var info := ti.remotes[at.value].value.Error(true);
      LiveUpdate(ti.remotes, at.value, Entry(key, info), f);
      LiveRemove(ti.remotes, at.value, f);
      DeadInsert(ti.deadRemotes, key, DeadRemote(info, Some(probe)), f);
    }
    hide LiveSum, DeadSum, Insert, SwapRemove, Find;
  }

  lemma RecoverSum(ti: TunnelInfo, key: SocketSpec, f: Field)
    requires Tidy(ti)
    ensures RemoteSum(RecoverRemote(ti, key), f) == RemoteSum(ti, f)
  {
    var at := Find(ti.deadRemotes, key);
    if at.Some? {
      DeadRemove(ti.deadRemotes, at.value, f);
      LiveInsert(ti.remotes, key, ti.deadRemotes[at.value].value.remote.Recovered(), f);
    }
    hide LiveSum, DeadSum, Insert, SwapRemove, Find;
  }

  lemma FailProbeSum(ti: TunnelInfo, key: SocketSpec, next: nat, f: Field)
    ensures RemoteSum(FailProbe(ti, key, next), f) == RemoteSum(ti, f) + if key in Keys(ti.deadRemotes) then Errors(f) else 0
  {
    var at := Find(ti.deadRemotes, key);
    if at.Some? {
      DeadUpdate(ti.deadRemotes, at.value,
                 Entry(key, DeadRemote(ti.deadRemotes[at.value].value.remote.Error(false), Some(next))), f);
    }
  }

  lemma AddSum(ti: TunnelInfo, key: SocketSpec, f: Field)
    requires AddRemote(ti, key).Some?
    ensures RemoteSum(AddRemote(ti, key).value, f) == RemoteSum(ti, f)
  {
    LiveInsert(ti.remotes, key, NEW_REMOTE, f);
  }

  lemma RemoveSum(ti: TunnelInfo, key: SocketSpec, f: Field)
    requires RemoveRemote(ti, key).Some?
    ensures RemoteSum(RemoveRemote(ti, key).value, f) <= RemoteSum(ti, f)
  {
    var live, dead := Find(ti.remotes, key), Find(ti.deadRemotes, key);
    if live.Some? {
      LiveRemove(ti.remotes, live.value, f);
    } else if dead.Some? {
      DeadRemove(ti.deadRemotes, dead.value, f);
    }
  }

  /** What the tunnel has seen of a field; of connections, those its clients made. */
  function Seen(ti: TunnelInfo, clients: seq<Client>, f: Field): (n: nat) {
    match f
    case FieldSent => ti.bytesSent
    case FieldReceived => ti.bytesReceived
    case FieldErrors => ti.errors
    case FieldConnections => Sum(clients, EverConnected)
  }

  ghost predicate Dominated(w: World) {
    w.tun.Some? ==> forall f :: RemoteSum(w.tun.value, f) <= Seen(w.tun.value, w.clients, f)
  }

  /** What a client's event can add to a field. */
  function Gained(e: Event, f: Field): (n: nat) {
    match f
    case FieldSent => if e.Transfers? && e.sending then e.bytes else 0
    case FieldReceived => if e.Transfers? && !e.sending then e.bytes else 0
    case FieldErrors => if e.Refused? then 1 else 0
    case FieldConnections => if e.Connects? then 1 else 0
  }

  lemma ToldSum(w: World, e: Event, f: Field)
    requires (e.Connects? || e.Transfers? || e.Leaves?) && Enabled(w, e) && w.tun.Some?
    ensures TunnelAfter(w, e).Some? && RemoteSum(TunnelAfter(w, e).value, f) <= RemoteSum(w.tun.value, f) + Gained(e, f)
  {
    var ti, pc := w.tun.value, w.clients[e.c].pc;
    hide LiveSum, DeadSum, Find, TellRemote;
    match e
    case Connects(_) => TellSum(ti, pc.remote, Connect, f);
    case Transfers(_, sending, bytes) =>
      TellSum(if sending then ti.(bytesSent := ti.bytesSent + bytes) else ti.(bytesReceived := ti.bytesReceived + bytes),
              pc.remote, Transfer(sending, bytes), f);
    case Leaves(_) =>
      if pc.Streaming? {
        TellSum(ti.(streamsOpen := ti.streamsOpen - 1), pc.remote, Disconnect, f);
      }
  }

  lemma ClientSum(w: World, e: Event, f: Field)
    requires Shape(w) && IsClientEvent(e) && Enabled(w, e) && w.tun.Some?
    ensures TunnelAfter(w, e).Some? && RemoteSum(TunnelAfter(w, e).value, f) <= RemoteSum(w.tun.value, f) + Gained(e, f)
  {
    ShapeTidy(w);
    var ti, pc := w.tun.value, w.clients[e.c].pc;
    hide LiveSum, DeadSum, Find, Select, FailRemote, Shape, MayChoose, Tidy;
    if e.SelectOk? {
      SelectSum(ti, e.idx, f);
    } else if e.Refused? {
      FailSum(ti, pc.remote, pc.till, |w.probes|, f);
    } else if e.Connects? || e.Transfers? || e.Leaves? {
      ToldSum(w, e, f);
    }
  }

  lemma ConnectsOnce(w: World, e: Event)
    requires IsClientEvent(e) && Enabled(w, e) && Orderly(w.clients[e.c])
    ensures Weigh(ClientAfter(w, e), EverConnected) == Weigh(w.clients[e.c], EverConnected) + Gained(e, FieldConnections)
  {
    hide MayChoose;
  }

  lemma SeenAfter(w: World, e: Event, f: Field)
    requires IsClientEvent(e) && Enabled(w, e) && w.tun.Some?
    ensures TunnelAfter(w, e).Some?
    ensures !f.FieldConnections? ==> Seen(TunnelAfter(w, e).value, [], f) == Seen(w.tun.value, [], f) + Gained(e, f)
  {
    hide Sum, MayChoose, Find, Insert, SwapRemove;
  }

  lemma ClientSeen(w: World, e: Event, f: Field)
    requires AllOrderly(w.clients) && IsClientEvent(e) && Enabled(w, e) && w.tun.Some?
    ensures TunnelAfter(w, e).Some?
    ensures Seen(TunnelAfter(w, e).value, w.clients[e.c := ClientAfter(w, e)], f) == Seen(w.tun.value, w.clients, f) + Gained(e, f)
  {
    ConnectsOnce(w, e);
    SumUpdate(w.clients, e.c, ClientAfter(w, e), EverConnected);
    SeenAfter(w, e, f);
    hide Sum, Weigh, ClientAfter, Orderly, Enabled, TunnelAfter;
  }

  lemma ProbeDominated(w: World, p: nat, success: bool, f: Field)
    requires Shape(w) && Enabled(w, ProbeEnds(p, success)) && w.tun.Some?
    requires RemoteSum(w.tun.value, f) <= Seen(w.tun.value, w.clients, f)
    ensures TunnelAfterProbe(w, p, success).Some?
    ensures RemoteSum(TunnelAfterProbe(w, p, success).value, f) <= Seen(TunnelAfterProbe(w, p, success).value, w.clients, f)
  {
    ShapeTidy(w);
    RecoverSum(w.tun.value, w.probes[p].remote, f);
    FailProbeSum(w.tun.value, w.probes[p].remote, |w.probes|, f);
    hide RemoteSum, Sum, Shape, Tidy, Find, SwapRemove, Insert;
  }

  lemma QuietDominated(w: World, e: Event, f: Field)
    requires Enabled(w, e) && !IsClientEvent(e) && !e.ProbeEnds? && w.tun.Some? && Step(w, e).tun.Some?
    requires RemoteSum(w.tun.value, f) <= Seen(w.tun.value, w.clients, f)
    ensures RemoteSum(Step(w, e).tun.value, f) <= Seen(Step(w, e).tun.value, Step(w, e).clients, f)
  {
    StepSum(w, e, EverConnected);
    if e.Add? && AddRemote(w.tun.value, e.remote).Some? {
      AddSum(w.tun.value, e.remote, f);
    } else if e.Remove? && RemoveRemote(w.tun.value, e.remote).Some? {
      RemoveSum(w.tun.value, e.remote, f);
    }
    hide RemoteSum, Sum, AbortAll, Find, Insert, SwapRemove;
  }

  lemma StepDominated(w: World, e: Event)
    requires Shape(w) && AllOrderly(w.clients) && Dominated(w) && Enabled(w, e)
    ensures Dominated(Step(w, e))
  {
    var w' := Step(w, e);
    if w'.tun.Some? {
      StepOptions(w, e);
      forall f
        ensures RemoteSum(w'.tun.value, f) <= Seen(w'.tun.value, w'.clients, f)
      {
        assert RemoteSum(w.tun.value, f) <= Seen(w.tun.value, w.clients, f);
        if IsClientEvent(e) {
          ClientSum(w, e, f);
          ClientSeen(w, e, f);
          assert w' == ClientStep(w, e);
        } else if e.ProbeEnds? {
          ProbeDominated(w, e.p, e.success, f);
        } else {
          QuietDominated(w, e, f);
        }
        hide Enabled, RemoteSum, Seen, TunnelAfter, ClientAfter, TunnelAfterProbe, Gained;
      }
    }
  }

  /** A client connects at most once, so the connections counted by its remotes are
      at most the clients that the tunnel counted. */
  lemma ConnectionsCounted(w: World)
    requires AllOrderly(w.clients) && TotalsExact(w) && Dominated(w) && w.tun.Some?
    ensures RemoteSum(w.tun.value, FieldConnections) <= w.tun.value.totalConnections
  {
    forall c | 0 <= c < |w.clients|
      ensures Weigh(w.clients[c], EverConnected) <= Weigh(w.clients[c], CountedIn)
    {
      assert Orderly(w.clients[c]);
    }
    SumOrdered(w.clients, EverConnected, CountedIn);
    assert IsTotal(CountedIn) && Total(w.tun.value, CountedIn) == Sum(w.clients, CountedIn);
  }
}
