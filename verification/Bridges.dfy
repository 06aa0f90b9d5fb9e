/** Every event of a run changes every record as one change of its own machine. */
module Bridges {
  import opened Wrappers
  import opened SocketSpecs
  import opened IndexMaps
  import opened TunnelInfos
  import opened Views
  import opened Machine
  import opened Shapes
  import opened Tallies
  import opened Records

  ghost predicate PresentIn(ti: TunnelInfo, books: map<SocketSpec, Book>, key: SocketSpec) {
    key in books && (key in Live(ti) || key in Dead(ti))
  }

  ghost predicate Present(w: World, key: SocketSpec) {
    w.tun.Some? && PresentIn(w.tun.value, w.books, key)
  }

  ghost function RecIn(ti: TunnelInfo, books: map<SocketSpec, Book>, clients: seq<Client>, key: SocketSpec): Rec
    requires PresentIn(ti, books, key)
  {
    Rec(key in Live(ti), RecordOf(ti, key), books[key],
        Sum(clients, ConnectingTo(key, books[key].id)), Sum(clients, StreamingTo(key, books[key].id)))
  }

  ghost function RecOf(w: World, key: SocketSpec): Rec
    requires Present(w, key)
  {
    RecIn(w.tun.value, w.books, w.clients, key)
  }

  ghost function Till(w: World): nat
    requires w.tun.Some?
  {
    w.tun.value.options.options.errorsTillDead
  }

  lemma AllPresent(w: World, key: SocketSpec)
    requires Shape(w)
    ensures Present(w, key) <==> key in w.books
    ensures w.tun.Some? ==> (IsLive(w, key) <==> key in Live(w.tun.value)) && (IsDead(w, key) <==> key in Dead(w.tun.value))
    ensures w.tun.Some? ==> !(key in Live(w.tun.value) && key in Dead(w.tun.value))
  {
  }

  /** The client of the event uses this remote. */
  predicate Uses(w: World, e: Event, key: SocketSpec)
    requires IsClientEvent(e) && Enabled(w, e)
  {
    KeyUsed(w, e) == Some(key)
  }

  lemma ClientWeights(w: World, e: Event, key: SocketSpec)
    requires IsClientEvent(e) && Enabled(w, e) && key in w.books
    ensures var (id, mine) := (w.books[key].id, Uses(w, e, key) && w.books[key].id == IdUsed(w, e));
            && Weigh(ClientAfter(w, e), ConnectingTo(key, id)) - Weigh(w.clients[e.c], ConnectingTo(key, id))
               == ConnectingDelta(e, mine)
            && Weigh(ClientAfter(w, e), StreamingTo(key, id)) - Weigh(w.clients[e.c], StreamingTo(key, id))
               == StreamingDelta(e, mine)
  {
    hide MayChoose;
  }

  /** The clients of a record after an event. */
  lemma ClientCounts(w: World, e: Event, key: SocketSpec)
    requires IsClientEvent(e) && Enabled(w, e) && key in w.books
    ensures var (id, mine) := (w.books[key].id, Uses(w, e, key) && w.books[key].id == IdUsed(w, e));
            var clients := w.clients[e.c := ClientAfter(w, e)];
            && Sum(clients, ConnectingTo(key, id)) == Sum(w.clients, ConnectingTo(key, id)) + ConnectingDelta(e, mine)
            && Sum(clients, StreamingTo(key, id)) == Sum(w.clients, StreamingTo(key, id)) + StreamingDelta(e, mine)
  {
    ClientWeights(w, e, key);
    hide ClientAfter, Weigh, Sum, MayChoose, ConnectingDelta, StreamingDelta, Uses, IdUsed;
    SumUpdate(w.clients, e.c, ClientAfter(w, e), ConnectingTo(key, w.books[key].id));
    SumUpdate(w.clients, e.c, ClientAfter(w, e), StreamingTo(key, w.books[key].id));
  }

  lemma ClientBook(w: World, e: Event, key: SocketSpec)
    requires IsClientEvent(e) && Enabled(w, e) && key in w.books
    ensures key in BooksAfter(w, e)
    ensures BooksAfter(w, e)[key] ==
            if Uses(w, e, key) then Noted(w.books[key], e, IdUsed(w, e), IsLive(w, key), IsDead(w, key)) else w.books[key]
  {
    hide MayChoose, IsLive, IsDead;
  }

  lemma ClientInfo(w: World, e: Event, key: SocketSpec)
    requires Shape(w) && IsClientEvent(e) && Enabled(w, e) && Present(w, key)
    ensures TunnelAfter(w, e).Some?
    ensures var (ti, hit, live, info) := (TunnelAfter(w, e).value, Uses(w, e, key), key in Live(w.tun.value), RecordOf(w.tun.value, key));
            && (key in Live(ti) || key in Dead(ti))
            && (key in Live(ti) <==> live && !(hit && e.Refused? && info.numErrors + 1 >= Till(w)))
            && RecordOf(ti, key) == if hit && live then Told(info, e) else info
  {
    ClientViews(w, e);
    AllPresent(w, key);
    hide Enabled, KeyUsed, Shape, TunnelAfter, Live, Dead, IsLive, IsDead, Told, Tidy;
  }

  /** What a client's event does to the record of `key`. */
  ghost function ClientChange(w: World, e: Event, key: SocketSpec): Change
    requires IsClientEvent(e) && Enabled(w, e) && Present(w, key)
  {
    ChangeFor(e, Uses(w, e, key), w.books[key].id == IdUsed(w, e), key in Live(w.tun.value))
  }

  lemma SelectedIsOwn(w: World, e: Event, key: SocketSpec)
    requires Shape(w) && IsClientEvent(e) && Enabled(w, e) && Present(w, key)
    requires e.SelectOk? && Uses(w, e, key)
    ensures key in Live(w.tun.value) && w.books[key].id == IdUsed(w, e)
  {
    ShapeTidy(w);
    At(w.tun.value.remotes, e.idx);
  }

  lemma ClientCanChange(w: World, e: Event, key: SocketSpec)
    requires Shape(w) && IsClientEvent(e) && Enabled(w, e) && Present(w, key)
    ensures CanChange(RecOf(w, key), ClientChange(w, e, key))
    ensures Follows(RecOf(w, key), Changed(RecOf(w, key), ClientChange(w, e, key), Till(w)), e, Uses(w, e, key), IdUsed(w, e), Till(w))
  {
    ClientCounts(w, e, key);
    if e.SelectOk? && Uses(w, e, key) {
      SelectedIsOwn(w, e, key);
    }
    hide ClientAfter, Enabled, Shape, Changed, ChangeFor, CanChange, Sum, Live, Dead, Uses, IdUsed, Noted, Told;
    hide ConnectingDelta, StreamingDelta, RecordOf, Follows;
    ChangeForParts(RecOf(w, key), e, IdUsed(w, e), Uses(w, e, key), Till(w));
  }

  lemma ClientPresent(w: World, e: Event, key: SocketSpec)
    requires Shape(w) && IsClientEvent(e) && Enabled(w, e) && Present(w, key)
    ensures TunnelAfter(w, e).Some? && PresentIn(TunnelAfter(w, e).value, BooksAfter(w, e), key)
    ensures BooksAfter(w, e)[key].id == w.books[key].id
  {
    ClientBooks(w, e);
    ClientInfo(w, e, key);
    hide TunnelAfter, BooksAfter, ClientAfter, Enabled, Shape, Live, Dead, RecordOf, Told;
  }

  lemma ClientFollows(w: World, e: Event, key: SocketSpec)
    requires Shape(w) && IsClientEvent(e) && Enabled(w, e) && Present(w, key)
    requires TunnelAfter(w, e).Some? && PresentIn(TunnelAfter(w, e).value, BooksAfter(w, e), key)
    ensures Follows(RecOf(w, key), RecIn(TunnelAfter(w, e).value, BooksAfter(w, e), w.clients[e.c := ClientAfter(w, e)], key),
                    e, Uses(w, e, key), IdUsed(w, e), Till(w))
  {
    AllPresent(w, key);
    ClientPresent(w, e, key);
    ClientBook(w, e, key);
    ClientCounts(w, e, key);
    ClientInfo(w, e, key);
    hide TunnelAfter, BooksAfter, ClientAfter, Enabled, Shape, Sum, Live, Dead, RecordOf;
    hide IsLive, IsDead, Uses, IdUsed, Noted, Told, ConnectingDelta, StreamingDelta, PresentIn;
  }

  /** A client's event makes one change to each record. */
  lemma ClientRecIn(w: World, e: Event, key: SocketSpec)
    requires Shape(w) && IsClientEvent(e) && Enabled(w, e) && Present(w, key)
    requires TunnelAfter(w, e).Some? && PresentIn(TunnelAfter(w, e).value, BooksAfter(w, e), key)
    requires CanChange(RecOf(w, key), ClientChange(w, e, key))
    ensures RecIn(TunnelAfter(w, e).value, BooksAfter(w, e), w.clients[e.c := ClientAfter(w, e)], key)
            == Changed(RecOf(w, key), ClientChange(w, e, key), Till(w))
  {
    ClientFollows(w, e, key);
    ClientCanChange(w, e, key);
    hide Follows, TunnelAfter, BooksAfter, ClientAfter, Enabled, Shape, Changed, CanChange, RecIn, RecOf, PresentIn, Uses, IdUsed;
    FollowsOnce(RecOf(w, key), Changed(RecOf(w, key), ClientChange(w, e, key), Till(w)),
                RecIn(TunnelAfter(w, e).value, BooksAfter(w, e), w.clients[e.c := ClientAfter(w, e)], key),
                e, Uses(w, e, key), IdUsed(w, e), Till(w));
  }

  lemma ClientRec(w: World, e: Event, key: SocketSpec)
    requires Shape(w) && IsClientEvent(e) && Enabled(w, e) && Present(w, key)
    ensures CanChange(RecOf(w, key), ClientChange(w, e, key)) && Present(Step(w, e), key)
    ensures RecOf(Step(w, e), key) == Changed(RecOf(w, key), ClientChange(w, e, key), Till(w))
  {
    ClientCanChange(w, e, key);
    ClientPresent(w, e, key);
    ClientRecIn(w, e, key);
    hide TunnelAfter, BooksAfter, ClientAfter, Enabled, Shape, Changed, CanChange, RecIn, PresentIn, ClientChange;
  }

  ghost function ProbeChange(w: World, p: nat, success: bool, key: SocketSpec): Change
    requires p < |w.probes| && Present(w, key)
  {
    ChangeForProbe(w.probes[p].remote == key, success, key in Live(w.tun.value))
  }

  lemma ProbeInfo(w: World, p: nat, success: bool, key: SocketSpec)
    requires Shape(w) && p < |w.probes| && Present(w, key)
    ensures TunnelAfterProbe(w, p, success).Some?
    ensures var (ti, r, hit) := (TunnelAfterProbe(w, p, success).value, RecOf(w, key), w.probes[p].remote == key);
            && (key in Live(ti) || key in Dead(ti))
            && (key in Live(ti) <==> r.live || (hit && success))
            && RecordOf(ti, key) == if r.live || !hit then r.info else if success then r.info.Recovered() else r.info.Error(false)
  {
    ProbeViews(w, p, success);
    AllPresent(w, key);
    hide TunnelAfterProbe, Sum, Shape, Live, Dead, IsLive, IsDead, Tidy;
  }

  lemma ProbeBook(w: World, p: nat, success: bool, key: SocketSpec)
    requires p < |w.probes| && key in w.books
    ensures key in BooksAfterProbe(w, p, success)
    ensures BooksAfterProbe(w, p, success)[key]
            == if w.probes[p].remote == key && IsDead(w, key) then NotedProbe(w.books[key], success) else w.books[key]
  {
    hide IsDead;
  }

  lemma ProbeRecIn(w: World, p: nat, success: bool, key: SocketSpec)
    requires Shape(w) && p < |w.probes| && Present(w, key)
    ensures CanChange(RecOf(w, key), ProbeChange(w, p, success, key))
    ensures var (tun, books) := (TunnelAfterProbe(w, p, success), BooksAfterProbe(w, p, success));
            && tun.Some? && PresentIn(tun.value, books, key)
            && RecIn(tun.value, books, w.clients, key) == Changed(RecOf(w, key), ProbeChange(w, p, success, key), Till(w))
  {
    AllPresent(w, key);
    ProbeInfo(w, p, success, key);
    ProbeBook(w, p, success, key);
    hide TunnelAfterProbe, BooksAfterProbe, Sum, Shape, Live, Dead, IsLive, IsDead, RecordOf, Changed, CanChange, ChangeForProbe;
    ChangeForProbeParts(RecOf(w, key), w.probes[p].remote == key, success, Till(w));
  }

  /** So does the end of a probe. */
  lemma ProbeRec(w: World, p: nat, success: bool, key: SocketSpec)
    requires Shape(w) && Enabled(w, ProbeEnds(p, success)) && Present(w, key)
    ensures var w' := Step(w, ProbeEnds(p, success));
            && CanChange(RecOf(w, key), ProbeChange(w, p, success, key)) && Present(w', key)
            && RecOf(w', key) == Changed(RecOf(w, key), ProbeChange(w, p, success, key), Till(w))
  {
    ProbeRecIn(w, p, success, key);
    hide TunnelAfterProbe, BooksAfterProbe, ProbesAfterProbe, RecIn, PresentIn, Changed, CanChange, ProbeChange, Shape;
  }
}
