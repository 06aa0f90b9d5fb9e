/** What every client does between its arrival and its end: at most as many
    selections as it has retries, each resolved once before the next. */
module Lifecycles {
  import opened Wrappers
  import opened IndexMaps
  import opened TunnelInfos
  import opened States
  import opened Views
  import opened Machine
  import opened Shapes

  /** The selections of a client that have come to a connect or an error. */
  function Resolutions(c: Client): (n: nat) {
    c.refusals + if c.connected.Some? then 1 else 0
  }

  /** The history of a client agrees with where it is. */
  ghost predicate Orderly(c: Client) {
    && c.selections <= c.retries
    && Resolutions(c) + (if c.pc.Connecting? then 1 else 0) == c.selections
    && (c.connected.None? ==> c.sent == 0 && c.received == 0)
    && (!c.pc.Gone? ==> c.reported.None?)
    && match c.pc
       case Arrived => c.retries == 0 && c.connected.None?
       case Counted => c.retries == 0 && c.connected.None?
       case Choosing(left) => left + c.selections == c.retries && c.connected.None?
       case Connecting(left, _, _, _) => left > 0 && left + c.selections == c.retries + 1 && c.connected.None?
       case Streaming(remote, _) => c.connected == Some(remote)
       case Leaving => c.connected.None?
       case Gone => c.reported == c.connected
  }

  ghost predicate AllOrderly(clients: seq<Client>) {
    forall c | 0 <= c < |clients| :: Orderly(clients[c])
  }

  lemma ClientStaysOrderly(w: World, e: Event)
    requires IsClientEvent(e) && Enabled(w, e) && Orderly(w.clients[e.c])
    ensures Orderly(ClientAfter(w, e))
  {
    hide MayChoose;
  }

  lemma StepOrderly(w: World, e: Event)
    requires AllOrderly(w.clients) && Enabled(w, e)
    ensures AllOrderly(Step(w, e).clients)
  {
    if IsClientEvent(e) {
      ClientStaysOrderly(w, e);
    }
    hide TunnelAfter, BooksAfter, ProbesAfter, ClientAfter, Orderly, AddRemote, RemoveRemote, AbortAll, Enabled;
    hide TunnelAfterProbe, BooksAfterProbe, ProbesAfterProbe;
    assert e.Arrive? ==> Orderly(NEW_CLIENT);
  }

  /** A client that has begun to choose was given the retries of the tunnel. */
  ghost predicate GivenRetries(client: Client, ti: TunnelInfo) {
    client.pc.Arrived? || client.pc.Counted? || client.retries == ti.options.remoteConnectRetries
  }

  ghost predicate AllGivenRetries(w: World) {
    w.tun.Some? ==> forall c | 0 <= c < |w.clients| :: GivenRetries(w.clients[c], w.tun.value)
  }

  lemma ClientGivenRetries(w: World, e: Event)
    requires IsClientEvent(e) && Enabled(w, e) && w.tun.Some? && GivenRetries(w.clients[e.c], w.tun.value)
    ensures GivenRetries(ClientAfter(w, e), w.tun.value)
  {
    hide MayChoose;
  }

  lemma StepRetries(w: World, e: Event)
    requires AllGivenRetries(w) && Enabled(w, e)
    ensures AllGivenRetries(Step(w, e))
  {
    var w' := Step(w, e);
    if w'.tun.Some? {
      StepOptions(w, e);
      forall c | 0 <= c < |w'.clients|
        ensures GivenRetries(w'.clients[c], w'.tun.value)
      {
        assert c < |w.clients| ==> GivenRetries(w.clients[c], w.tun.value);
        if IsClientEvent(e) && e.c == c {
          ClientGivenRetries(w, e);
          assert w'.clients[c] == ClientAfter(w, e);
        } else if c < |w.clients| {
          OthersLeaveClientAlone(w, e, c);
        } else {
          OnlyArrivalsJoin(w, e, c);
        }
        hide Step, Enabled, ClientAfter;
      }
    }
  }

  lemma OnlyArrivalsJoin(w: World, e: Event, c: nat)
    requires Enabled(w, e) && |w.clients| <= c < |Step(w, e).clients|
    ensures Step(w, e).clients[c] == NEW_CLIENT
  {
    hide TunnelAfter, BooksAfter, ProbesAfter, ClientAfter, AddRemote, RemoveRemote, AbortAll;
    hide TunnelAfterProbe, BooksAfterProbe, ProbesAfterProbe;
  }

  /** A client's task advances only by its own events. */
  lemma OthersLeaveClientAlone(w: World, e: Event, c: nat)
    requires Enabled(w, e) && c < |w.clients| && !(IsClientEvent(e) && e.c == c)
    ensures c < |Step(w, e).clients| && Step(w, e).clients[c] == w.clients[c]
  {
    hide TunnelAfter, BooksAfter, ProbesAfter, ClientAfter, AddRemote, RemoveRemote, AbortAll;
    hide TunnelAfterProbe, BooksAfterProbe, ProbesAfterProbe;
  }

  /** A client without retries left can only leave. */
  lemma LastRetry(w: World, e: Event)
    requires IsClientEvent(e) && Enabled(w, e) && w.clients[e.c].pc == Choosing(0)
    ensures e == Leaves(e.c)
  {
    hide MayChoose;
  }

  /** How far a client has come. */
  function Rank(c: Client): (rank: nat) {
    match c.pc
    case Arrived => 0
    case Counted => 1
    case Choosing(left) => 2 + 2 * c.selections
    case Connecting(left, _, _, _) => 1 + 2 * c.selections
    case Streaming(_, _) => 4 + 2 * c.retries
    case Leaving => 4 + 2 * c.retries
    case Gone => 5 + 2 * c.retries
  }

  /** Copying aside, each of its events brings it further. */
  lemma ClientAdvances(w: World, e: Event)
    requires IsClientEvent(e) && Enabled(w, e) && Orderly(w.clients[e.c]) && !e.Transfers?
    ensures var (c, c') := (w.clients[e.c], ClientAfter(w, e));
            Rank(c) < Rank(c') <= 5 + 2 * c'.retries
  {
    hide MayChoose;
  }

  /** How many events of a client, transfers aside, a run has. */
  function Moves(es: seq<Event>, c: nat): (n: nat)
    decreases |es|
  {
    if es == [] then 0
    else (if IsClientEvent(es[0]) && es[0].c == c && !es[0].Transfers? then 1 else 0) + Moves(es[1..], c)
  }

  lemma StepRank(w: World, e: Event, c: nat)
    requires AllOrderly(w.clients) && Enabled(w, e) && c < |w.clients|
    ensures c < |Step(w, e).clients|
    ensures Rank(w.clients[c]) + Moves([e], c) <= Rank(Step(w, e).clients[c])
  {
    assert [e][1..] == [];
    if IsClientEvent(e) && e.c == c {
      assert Orderly(w.clients[c]);
      assert Step(w, e).clients[c] == ClientAfter(w, e);
      if e.Transfers? {
        assert Rank(ClientAfter(w, e)) == Rank(w.clients[c]);
      } else {
        ClientAdvances(w, e);
      }
    } else {
      OthersLeaveClientAlone(w, e, c);
    }
    hide Step, Enabled, Rank, Orderly;
  }

  lemma {:induction false} RunRank(w: World, es: seq<Event>, c: nat)
    requires AllOrderly(w.clients) && CanRun(w, es) && c < |w.clients|
    ensures c < |Run(w, es).clients| && AllOrderly(Run(w, es).clients)
    ensures Rank(w.clients[c]) + Moves(es, c) <= Rank(Run(w, es).clients[c])
    decreases |es|
  {
    hide Step, Enabled, Rank, Orderly;
    if es != [] {
      StepOrderly(w, es[0]);
      StepRank(w, es[0], c);
      RunRank(Step(w, es[0]), es[1..], c);
      assert [es[0]][1..] == [];
    }
  }

  /** In no run, however long, does a client perform more events than that. */
  lemma MovesBounded(w: World, es: seq<Event>, c: nat)
    requires AllOrderly(w.clients) && CanRun(w, es) && c < |w.clients|
    ensures c < |Run(w, es).clients|
    ensures Moves(es, c) <= 5 + 2 * Run(w, es).clients[c].retries
  {
    RunRank(w, es, c);
    hide CanRun, Run, Moves;
    assert Orderly(Run(w, es).clients[c]);
  }

  /** Some live remote can be chosen, unless the tunnel is gone or has none. */
  lemma SomeChoice(ti: TunnelInfo) returns (idx: nat)
    requires ti.remotes != []
    ensures MayChoose(ti, idx)
  {
    if ti.options.strategy.RoundRobin? {
      idx := RoundRobinSelect(|ti.remotes|, ti.lastSelectedIndex);
    } else {
      idx := LeastLoaded(ti.remotes, |ti.remotes|);
    }
  }

  lemma LeastLoaded(remotes: IndexMap<RemoteInfo>, n: nat) returns (idx: nat)
    requires 0 < n <= |remotes|
    ensures idx < n
    ensures forall j | 0 <= j < n :: Load(remotes[idx].value) <= Load(remotes[j].value)
    ensures forall j | 0 <= j < idx :: Load(remotes[idx].value) < Load(remotes[j].value)
  {
    if n == 1 {
      idx := 0;
    } else {
      idx := LeastLoaded(remotes, n - 1);
      if Load(remotes[n - 1].value) < Load(remotes[idx].value) {
        idx := n - 1;
      }
    }
  }

  /** A client that may select gets any remote that the strategy may choose. */
  lemma SelectionGuard(w: World, c: nat, idx: nat)
    requires Shape(w) && c < |w.clients| && w.clients[c].pc.Choosing? && w.clients[c].pc.left > 0
    ensures Enabled(w, SelectOk(c, idx)) <==> w.tun.Some? && MayChoose(w.tun.value, idx)
  {
    if w.tun.Some? && idx < |w.tun.value.remotes| {
      assert w.tun.value.remotes[idx].key in Live(w.tun.value);
    }
  }

  /** Its selection fails exactly when the tunnel is gone or has no live remote, and
      succeeds otherwise. */
  lemma SelectionOutcome(w: World, c: nat)
    requires Shape(w) && c < |w.clients| && w.clients[c].pc.Choosing? && w.clients[c].pc.left > 0
    ensures Enabled(w, SelectFails(c)) <==> w.tun.None? || Live(w.tun.value) == map[]
    ensures Enabled(w, SelectFails(c)) <==> !exists idx: nat :: Enabled(w, SelectOk(c, idx))
  {
    if w.tun.Some? && w.tun.value.remotes != [] {
      assert w.tun.value.remotes[0].key in Live(w.tun.value);
      var idx := SomeChoice(w.tun.value);
      SelectionGuard(w, c, idx);
    }
    hide Shape, Find, IsLeastLoaded;
  }

  /** A successful selection is of a live remote, where one more stream is pending
      then, and nothing else changes among the remotes. */
  lemma SelectionPends(w: World, c: nat, idx: nat)
    requires Shape(w) && Enabled(w, SelectOk(c, idx))
    ensures var (w', key) := (Step(w, SelectOk(c, idx)), w.tun.value.remotes[idx].key);
            && key in Live(w.tun.value)
            && w'.tun.Some? && Dead(w'.tun.value) == Dead(w.tun.value)
            && Live(w'.tun.value) == Live(w.tun.value)[key := Live(w.tun.value)[key].NewPendingStream()]
            && w'.clients[c].pc.Connecting? && w'.clients[c].pc.remote == key
  {
    ShapeTidy(w);
    SelectView(w.tun.value, idx);
    hide Shape, MayChoose, Live, Dead, Tidy, Select;
  }

  /** A client that has not ended can always go on, whatever a connection attempt
      or a selection comes to. */
  lemma NeverStuck(w: World, c: nat)
    requires Shape(w) && AllOrderly(w.clients) && c < |w.clients| && !w.clients[c].pc.Gone?
    ensures w.clients[c].pc.Connecting? ==> Enabled(w, Connects(c)) && Enabled(w, Refused(c))
    ensures exists e :: IsClientEvent(e) && e.c == c && Enabled(w, e)
  {
    assert Orderly(w.clients[c]);
    match w.clients[c].pc
    case Arrived => assert Enabled(w, CountIn(c));
    case Counted => assert Enabled(w, ReadRetries(c));
    case Connecting(_, _, _, _) => assert Enabled(w, Connects(c));
    case Choosing(left) =>
      if left == 0 {
        assert Enabled(w, Leaves(c));
      } else {
        SelectionOutcome(w, c);
        if !Enabled(w, SelectFails(c)) {
          var idx: nat :| Enabled(w, SelectOk(c, idx));
          assert IsClientEvent(SelectOk(c, idx));
        }
        assert IsClientEvent(SelectFails(c));
      }
    case _ => assert Enabled(w, Leaves(c));
  }
}
