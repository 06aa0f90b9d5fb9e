/** The basic invariant of a run: live and dead remotes are disjoint and are
    exactly the ones that have a book, and only remotes that were added occur. */
module Shapes {
  import opened Wrappers
  import opened SocketSpecs
  import opened Tunnels
  import opened IndexMaps
  import opened TunnelInfos
  import opened States
  import opened Views
  import opened Machine

  /** What a client holds was given to it by the tunnel. */
  ghost predicate HoldsGiven(client: Client, births: nat, tun: Option<TunnelInfo>) {
    match client.pc
    case Connecting(_, _, id, till) => id < births && (tun.Some? ==> till == tun.value.options.options.errorsTillDead)
    case Streaming(_, id) => id < births
    case _ => true
  }

  ghost predicate ClientsOk(clients: seq<Client>, births: nat, tun: Option<TunnelInfo>) {
    forall c | 0 <= c < |clients| :: HoldsGiven(clients[c], births, tun)
  }

  ghost predicate KeysOk(tun: Option<TunnelInfo>, keys: set<SocketSpec>) {
    match tun
    case None => keys == {}
    case Some(ti) => Tidy(ti) && keys == Live(ti).Keys + Dead(ti).Keys
  }

  ghost predicate OldBooks(books: map<SocketSpec, Book>, births: nat) {
    forall key | key in books :: books[key].id < births
  }

  ghost predicate Shape(w: World) {
    KeysOk(w.tun, w.books.Keys) && OldBooks(w.books, w.births) && ClientsOk(w.clients, w.births, w.tun)
  }

  lemma NewTunnelView(remotes: seq<SocketSpec>, options: TunnelOptions)
    ensures var ti := NewTunnel(remotes, options);
            && Tidy(ti) && Dead(ti) == map[] && Live(ti).Keys == (set key | key in remotes)
            && (forall key | key in Live(ti) :: Live(ti)[key] == NEW_REMOTE)
  {
    InsertAllView([], remotes);
    hide InsertAll, Find;
    assert ToMap(NewTunnel(remotes, options).deadRemotes).Keys == {};
  }

  lemma InitialShape(w: World)
    requires Initial(w)
    ensures Shape(w) && Dead(w.tun.value) == map[]
    ensures forall key | key in Live(w.tun.value) :: Live(w.tun.value)[key] == NEW_REMOTE
  {
    var remotes, options :| w.tun == Some(NewTunnel(remotes, options));
    NewTunnelView(remotes, options);
    hide NewTunnel, ToMap;
  }

  /** Does the event make the remote `key` dead? */
  ghost predicate Fatal(w: World, e: Event, key: SocketSpec)
    requires w.tun.Some? && key in Live(w.tun.value)
  {
    e.Refused? && Live(w.tun.value)[key].numErrors + 1 >= w.tun.value.options.options.errorsTillDead
  }

  /** The views of the tunnel after an event of a client that uses `key`: a live
      remote takes note, or dies of it and is given a new probe. */
  ghost predicate KeyViews(w: World, e: Event, key: Option<SocketSpec>, ti: TunnelInfo)
    requires w.tun.Some?
  {
    var (live, dead) := (Live(w.tun.value), Dead(w.tun.value));
    && Tidy(ti)
    && if key.None? || key.value !in live then Live(ti) == live && Dead(ti) == dead
       else if Fatal(w, e, key.value) then
         && Live(ti) == live - {key.value}
         && Dead(ti) == dead[key.value := DeadRemote(Told(live[key.value], e), Some(|w.probes|))]
       else Live(ti) == live[key.value := Told(live[key.value], e)] && Dead(ti) == dead
  }

  lemma SelectViews(w: World, e: Event)
    requires Shape(w) && e.SelectOk? && Enabled(w, e)
    ensures TunnelAfter(w, e).Some? && KeyViews(w, e, KeyUsed(w, e), TunnelAfter(w, e).value)
  {
    ShapeTidy(w);
    assert e.idx < |w.tun.value.remotes|;
    hide ToMap, Find, Select, Shape, MayChoose;
    SelectView(w.tun.value, e.idx);
  }

  lemma RefusedViews(w: World, e: Event)
    requires Shape(w) && w.tun.Some? && e.Refused? && Enabled(w, e)
    ensures TunnelAfter(w, e).Some? && KeyViews(w, e, KeyUsed(w, e), TunnelAfter(w, e).value)
  {
    ShapeTidy(w);
    assert HoldsGiven(w.clients[e.c], w.births, w.tun);
    var (ti, key, till) := (w.tun.value, w.clients[e.c].pc.remote, w.clients[e.c].pc.till);
    assert till == ti.options.options.errorsTillDead && KeyUsed(w, e) == Some(key);
    assert TunnelAfter(w, e) == Some(FailRemote(ti, key, till, |w.probes|));
    assert key in Live(ti) ==> Told(Live(ti)[key], e) == Live(ti)[key].Error(true);
    hide ToMap, Find, FailRemote, Shape, Kills, TunnelAfter, KeyUsed, Told, Enabled, Tidy, Live, Dead, RemoteInfo.Error;
    FailRemoteView(ti, key, till, |w.probes|);
  }

  lemma ToldViews(w: World, e: Event)
    requires Shape(w) && w.tun.Some? && (e.Connects? || e.Transfers? || e.Leaves?) && Enabled(w, e)
    ensures TunnelAfter(w, e).Some? && KeyViews(w, e, KeyUsed(w, e), TunnelAfter(w, e).value)
  {
    hide ToMap, Find, TellRemote, Shape;
    var ti, pc := w.tun.value, w.clients[e.c].pc;
    ShapeTidy(w);
    match e
    case Connects(_) => TellRemoteView(ti, pc.remote, Connect);
    case Transfers(_, sending, bytes) =>
      var t := if sending then ti.(bytesSent := ti.bytesSent + bytes) else ti.(bytesReceived := ti.bytesReceived + bytes);
      TellRemoteView(t, pc.remote, Transfer(sending, bytes));
    case Leaves(_) =>
      if pc.Streaming? {
        TellRemoteView(ti.(streamsOpen := ti.streamsOpen - 1), pc.remote, Disconnect);
      }
  }

  lemma ClientViews(w: World, e: Event)
    requires Shape(w) && IsClientEvent(e) && Enabled(w, e) && w.tun.Some?
    ensures TunnelAfter(w, e).Some? && KeyViews(w, e, KeyUsed(w, e), TunnelAfter(w, e).value)
  {
    if e.SelectOk? {
      SelectViews(w, e);
    } else if e.Refused? {
      RefusedViews(w, e);
    } else if e.Connects? || e.Transfers? || e.Leaves? {
      ToldViews(w, e);
    } else {
      ShapeTidy(w);
    }
  }

  lemma ShapeTidy(w: World)
    requires Shape(w) && w.tun.Some?
    ensures Tidy(w.tun.value)
  {
  }

  /** No event of a client adds or removes a book. */
  lemma ClientBooks(w: World, e: Event)
    requires IsClientEvent(e) && Enabled(w, e)
    ensures BooksAfter(w, e).Keys == w.books.Keys
    ensures forall key | key in w.books :: BooksAfter(w, e)[key].id == w.books[key].id
  {
  }

  /** The options of a tunnel never change. */
  lemma ClientOptions(w: World, e: Event)
    requires IsClientEvent(e) && Enabled(w, e) && w.tun.Some?
    ensures TunnelAfter(w, e).Some? && TunnelAfter(w, e).value.options == w.tun.value.options
  {
    hide Insert, SwapRemove, Find, MayChoose;
  }

  lemma ClientHoldsGiven(w: World, e: Event)
    requires Shape(w) && IsClientEvent(e) && Enabled(w, e)
    ensures HoldsGiven(ClientAfter(w, e), w.births, w.tun)
  {
    hide MayChoose, KeysOk;
    assert HoldsGiven(w.clients[e.c], w.births, w.tun);
  }

  lemma KeyViewsUnion(w: World, e: Event, key: Option<SocketSpec>, ti: TunnelInfo)
    requires w.tun.Some? && KeyViews(w, e, key, ti)
    ensures Live(ti).Keys + Dead(ti).Keys == Live(w.tun.value).Keys + Dead(w.tun.value).Keys
  {
    hide Live, Dead, Told, Tidy, Fatal;
  }

  lemma ClientKeys(w: World, e: Event)
    requires Shape(w) && IsClientEvent(e) && Enabled(w, e)
    ensures KeysOk(TunnelAfter(w, e), w.books.Keys)
  {
    assert w.tun.None? ==> TunnelAfter(w, e).None?;
    if w.tun.Some? {
      ClientViews(w, e);
      hide TunnelAfter, Enabled, Live, Dead, Tidy, ClientsOk, OldBooks, KeyUsed, Fatal;
      KeyViewsUnion(w, e, KeyUsed(w, e), TunnelAfter(w, e).value);
    }
  }

  lemma ClientClients(w: World, e: Event)
    requires Shape(w) && IsClientEvent(e) && Enabled(w, e)
    ensures ClientsOk(w.clients[e.c := ClientAfter(w, e)], w.births, TunnelAfter(w, e))
  {
    ClientHoldsGiven(w, e);
    if w.tun.Some? {
      ClientOptions(w, e);
    }
    assert w.tun.None? ==> TunnelAfter(w, e).None?;
    hide TunnelAfter, ClientAfter, KeysOk, Enabled, OldBooks;
  }

  lemma ClientShape(w: World, e: Event)
    requires Shape(w) && IsClientEvent(e) && Enabled(w, e)
    ensures Shape(Step(w, e))
  {
    ClientBooks(w, e);
    ClientClients(w, e);
    ClientKeys(w, e);
    hide TunnelAfter, BooksAfter, ProbesAfter, ClientAfter, Enabled, KeysOk, ClientsOk;
  }

  lemma ProbeViews(w: World, p: nat, success: bool)
    requires Shape(w) && p < |w.probes| && w.tun.Some?
    ensures var (key, live, dead, ti) := (w.probes[p].remote, Live(w.tun.value), Dead(w.tun.value), TunnelAfterProbe(w, p, success));
            && ti.Some? && Tidy(ti.value) && ti.value.options == w.tun.value.options
            && if key !in dead then Live(ti.value) == live && Dead(ti.value) == dead
               else if success then
                 Dead(ti.value) == dead - {key} && Live(ti.value) == live[key := dead[key].remote.Recovered()]
               else Live(ti.value) == live
                    && Dead(ti.value) == dead[key := DeadRemote(dead[key].remote.Error(false), Some(|w.probes|))]
  {
    RecoverRemoteView(w.tun.value, w.probes[p].remote);
    FailProbeView(w.tun.value, w.probes[p].remote, |w.probes|);
  }

  lemma ProbeKeys(w: World, p: nat, success: bool)
    requires Shape(w) && p < |w.probes|
    ensures KeysOk(TunnelAfterProbe(w, p, success), w.books.Keys)
    ensures ClientsOk(w.clients, w.births, TunnelAfterProbe(w, p, success))
  {
    assert w.tun.None? ==> TunnelAfterProbe(w, p, success).None?;
    if w.tun.Some? {
      ProbeViews(w, p, success);
      hide TunnelAfterProbe, ToMap, Live, Dead, Tidy, OldBooks, RemoteInfo.Error, RemoteInfo.Recovered;
      var ti := TunnelAfterProbe(w, p, success).value;
      assert Live(ti).Keys + Dead(ti).Keys == w.books.Keys;
    }
  }

  /** Nor does the end of a probe. */
  lemma ProbeBooks(w: World, p: nat, success: bool)
    requires p < |w.probes|
    ensures BooksAfterProbe(w, p, success).Keys == w.books.Keys
    ensures forall key | key in w.books :: BooksAfterProbe(w, p, success)[key].id == w.books[key].id
  {
    hide IsDead;
  }

  lemma ProbeShape(w: World, p: nat, success: bool)
    requires Shape(w) && Enabled(w, ProbeEnds(p, success))
    ensures Shape(Step(w, ProbeEnds(p, success)))
  {
    ProbeKeys(w, p, success);
    ProbeBooks(w, p, success);
    hide TunnelAfterProbe, BooksAfterProbe, ProbesAfterProbe, KeysOk, ClientsOk;
  }

  lemma AddShape(w: World, remote: SocketSpec)
    requires Shape(w)
    ensures Shape(Step(w, Add(remote)))
  {
    var w' := Step(w, Add(remote));
    assert ClientsOk(w'.clients, w'.births, w'.tun) && OldBooks(w'.books, w'.births);
    if w.tun.Some? {
      AddRemoteView(w.tun.value, remote);
    }
    hide AddRemote, ToMap, Live, Dead, Tidy, ClientsOk, OldBooks;
  }

  lemma RemoveShape(w: World, remote: SocketSpec)
    requires Shape(w)
    ensures Shape(Step(w, Remove(remote)))
  {
    var w' := Step(w, Remove(remote));
    assert ClientsOk(w'.clients, w'.births, w'.tun) && OldBooks(w'.books, w'.births);
    if w.tun.Some? {
      RemoveRemoteView(w.tun.value, remote);
    }
    hide RemoveRemote, ToMap, Live, Dead, Tidy, ClientsOk, OldBooks;
  }

  lemma OtherShape(w: World, e: Event)
    requires Shape(w) && Enabled(w, e) && (e.Close? || e.Arrive? || e.Elsewhere?)
    ensures Shape(Step(w, e))
  {
    hide Live, Dead, Tidy, AbortAll;
  }

  /** A tunnel that is gone stays gone. */
  lemma GoneStays(w: World, e: Event)
    requires Enabled(w, e) && w.tun.None?
    ensures Step(w, e).tun.None?
  {
  }

  lemma StepOptions(w: World, e: Event)
    requires Enabled(w, e) && Step(w, e).tun.Some?
    ensures w.tun.Some? && Step(w, e).tun.value.options == w.tun.value.options
  {
    if w.tun.None? {
      GoneStays(w, e);
    } else if IsClientEvent(e) {
      ClientOptions(w, e);
    }
    hide TunnelAfter, BooksAfter, ClientAfter, ProbesAfter, Insert, SwapRemove, Find, AbortAll;
  }

  /** Only adding a remote opens a book. */
  lemma StepKeys(w: World, e: Event)
    requires Enabled(w, e)
    ensures Step(w, e).books.Keys <= w.books.Keys + if e.Add? then {e.remote} else {}
  {
    if IsClientEvent(e) {
      ClientBooks(w, e);
    }
    hide TunnelAfter, BooksAfter, ClientAfter, ProbesAfter, TunnelAfterProbe, ProbesAfterProbe, AddRemote, RemoveRemote;
  }

  /** Every event keeps the shape. */
  lemma StepShape(w: World, e: Event)
    requires Shape(w) && Enabled(w, e)
    ensures Shape(Step(w, e))
  {
    hide Step, Enabled, Shape;
    match e
    case ProbeEnds(p, success) => ProbeShape(w, p, success);
    case Add(remote) => AddShape(w, remote);
    case Remove(remote) => RemoveShape(w, remote);
    case Arrive => OtherShape(w, e);
    case Close => OtherShape(w, e);
    case Elsewhere(_) => OtherShape(w, e);
    case _ => ClientShape(w, e);
  }
}
