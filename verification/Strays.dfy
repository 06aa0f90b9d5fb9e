/** When a remote is added again only after all clients of its earlier records
    have left, no client ever acts on a record that it was not given. */
module Strays {
  import opened SocketSpecs
  import opened TunnelInfos
  import opened States
  import opened Views
  import opened Machine
  import opened Shapes

  predicate Holds(client: Client, key: SocketSpec) {
    (client.pc.Connecting? || client.pc.Streaming?) && client.pc.remote == key
  }

  /** The event does not add a remote that a client still holds from earlier. */
  ghost predicate Careful(w: World, e: Event) {
    e.Add? && e.remote !in w.books ==> forall c | 0 <= c < |w.clients| :: !Holds(w.clients[c], e.remote)
  }

  /** If the remote that a client holds is there, it is the record it was given. */
  predicate HoldsCurrent(client: Client, books: map<SocketSpec, Book>) {
    (client.pc.Connecting? || client.pc.Streaming?) && client.pc.remote in books ==> books[client.pc.remote].id == client.pc.id
  }

  predicate Unstrayed(b: Book) {
    b.strayResolved == 0 && b.strayConnected == 0 && b.strayLeft == 0
  }

  ghost predicate AllCurrent(clients: seq<Client>, books: map<SocketSpec, Book>) {
    forall c | 0 <= c < |clients| :: HoldsCurrent(clients[c], books)
  }

  ghost predicate AllUnstrayed(books: map<SocketSpec, Book>) {
    forall key | key in books :: Unstrayed(books[key])
  }

  ghost predicate NoStrays(w: World) {
    AllCurrent(w.clients, w.books) && AllUnstrayed(w.books)
  }

  lemma ClientHoldsCurrent(w: World, e: Event)
    requires IsClientEvent(e) && Enabled(w, e) && HoldsCurrent(w.clients[e.c], w.books)
    ensures HoldsCurrent(ClientAfter(w, e), w.books)
  {
    hide MayChoose;
  }

  lemma ClientStrays(w: World, e: Event)
    requires NoStrays(w) && IsClientEvent(e) && Enabled(w, e)
    ensures AllCurrent(w.clients[e.c := ClientAfter(w, e)], BooksAfter(w, e))
  {
    ClientBooks(w, e);
    ClientHoldsCurrent(w, e);
    hide ClientAfter, BooksAfter, Enabled;
    var clients := w.clients[e.c := ClientAfter(w, e)];
    forall c | 0 <= c < |clients|
      ensures HoldsCurrent(clients[c], BooksAfter(w, e))
    {
      assert c != e.c ==> HoldsCurrent(w.clients[c], w.books);
    }
  }

  lemma ClientUnstrayed(w: World, e: Event)
    requires NoStrays(w) && IsClientEvent(e) && Enabled(w, e)
    ensures AllUnstrayed(BooksAfter(w, e))
  {
    assert HoldsCurrent(w.clients[e.c], w.books);
    assert forall key | key in w.books :: Unstrayed(w.books[key]);
    hide MayChoose, IsLive, IsDead;
  }

  /** Other events leave every book to its record; only an addition opens one. */
  lemma QuietBook(w: World, e: Event, key: SocketSpec)
    requires Shape(w) && Enabled(w, e) && !IsClientEvent(e) && key in Step(w, e).books
    ensures var book := Step(w, e).books[key];
            if key in w.books then book.id == w.books[key].id && (Unstrayed(w.books[key]) ==> Unstrayed(book))
            else e == Add(key) && Unstrayed(book)
  {
    if e.Add? && w.tun.Some? {
      AddRemoteView(w.tun.value, e.remote);
    }
    hide Live, Dead, AddRemote, RemoveRemote, AbortAll, TunnelAfterProbe, ProbesAfterProbe, Tidy, ClientsOk;
  }

  lemma QuietClients(w: World, e: Event)
    requires Enabled(w, e) && !IsClientEvent(e)
    ensures Step(w, e).clients == if e.Arrive? then w.clients + [NEW_CLIENT] else w.clients
  {
    hide AddRemote, RemoveRemote, AbortAll, TunnelAfterProbe, ProbesAfterProbe, BooksAfterProbe;
  }

  lemma QuietStrays(w: World, e: Event)
    requires Shape(w) && NoStrays(w) && Enabled(w, e) && Careful(w, e) && !IsClientEvent(e)
    ensures NoStrays(Step(w, e))
  {
    QuietClients(w, e);
    hide Step, Shape, Enabled;
    var (clients, books) := (Step(w, e).clients, Step(w, e).books);
    forall key | key in books
      ensures Unstrayed(books[key])
    {
      QuietBook(w, e, key);
    }
    forall c | 0 <= c < |clients|
      ensures HoldsCurrent(clients[c], books)
    {
      assert c < |w.clients| ==> HoldsCurrent(w.clients[c], w.books);
      if (clients[c].pc.Connecting? || clients[c].pc.Streaming?) && clients[c].pc.remote in books {
        QuietBook(w, e, clients[c].pc.remote);
        assert Holds(w.clients[c], clients[c].pc.remote);
      }
    }
  }

  lemma StepStrays(w: World, e: Event)
    requires Shape(w) && NoStrays(w) && Enabled(w, e) && Careful(w, e)
    ensures NoStrays(Step(w, e))
  {
    if IsClientEvent(e) {
      ClientStrays(w, e);
      ClientUnstrayed(w, e);
      hide TunnelAfter, BooksAfter, ProbesAfter, ClientAfter, AllCurrent, AllUnstrayed, Enabled;
    } else {
      QuietStrays(w, e);
    }
  }
}
