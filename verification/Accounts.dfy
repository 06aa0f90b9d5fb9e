/** The accounts, the error limit and the failure bound of every remote of the
    tunnel, in every state that a run can reach. */
module Accounts {
  import opened SocketSpecs
  import opened TunnelInfos
  import opened Views
  import opened Machine
  import opened Shapes
  import opened Tallies
  import opened Records
  import opened Bridges

  /** Every remote of the tunnel has a good record. */
  ghost predicate AllGood(w: World) {
    forall key | Present(w, key) :: Good(RecOf(w, key), Till(w))
  }

  /** Nobody has been given a record that is yet to be added. */
  lemma FreshRecord(w: World, key: SocketSpec)
    requires Shape(w)
    ensures Sum(w.clients, ConnectingTo(key, w.births)) == 0 && Sum(w.clients, StreamingTo(key, w.births)) == 0
  {
    assert forall c | 0 <= c < |w.clients| :: HoldsGiven(w.clients[c], w.births, w.tun);
    SumNone(w.clients, ConnectingTo(key, w.births));
    SumNone(w.clients, StreamingTo(key, w.births));
  }

  lemma AddRec(w: World, remote: SocketSpec, key: SocketSpec)
    requires Shape(w) && Present(Step(w, Add(remote)), key)
    ensures if Present(w, key) then RecOf(Step(w, Add(remote)), key) == RecOf(w, key)
            else IsNew(RecOf(Step(w, Add(remote)), key))
  {
    AddRemoteView(w.tun.value, remote);
    AllPresent(w, key);
    FreshRecord(w, key);
    hide Sum, Live, Dead, AddRemote, Tidy, ClientsOk, OldBooks;
  }

  lemma RemoveRec(w: World, remote: SocketSpec, key: SocketSpec)
    requires Shape(w) && Present(Step(w, Remove(remote)), key)
    ensures Present(w, key) && RecOf(Step(w, Remove(remote)), key) == RecOf(w, key)
  {
    RemoveRemoteView(w.tun.value, remote);
    AllPresent(w, key);
    hide Sum, Live, Dead, RemoveRemote, Tidy, ClientsOk, OldBooks;
  }

  lemma ArriveRec(w: World, key: SocketSpec)
    requires Present(w, key)
    ensures RecOf(Step(w, Arrive), key) == RecOf(w, key)
  {
    var id := w.books[key].id;
    SumAppend(w.clients, NEW_CLIENT, ConnectingTo(key, id));
    SumAppend(w.clients, NEW_CLIENT, StreamingTo(key, id));
    hide Sum, Live, Dead;
  }

  lemma SameRec(r: Rec, till: nat)
    ensures CanChange(r, Same) && Changed(r, Same, till) == r
  {
  }

  lemma ElsewhereRec(w: World, e: Event, key: SocketSpec)
    requires Enabled(w, e) && (e.Elsewhere? || e.Close?) && Present(Step(w, e), key)
    ensures Present(w, key) && RecOf(Step(w, e), key) == RecOf(w, key)
  {
    hide Sum, Live, Dead;
  }

  /** Only adding a remote brings a new record. */
  lemma StepPresent(w: World, e: Event, key: SocketSpec)
    requires Shape(w) && Enabled(w, e) && Present(Step(w, e), key)
    ensures w.tun.Some? && (Present(w, key) || e == Add(key))
  {
    StepOptions(w, e);
    StepKeys(w, e);
    AllPresent(w, key);
    hide Step, Shape, Live, Dead, Enabled;
  }

  ghost predicate ChangedOnce(r: Rec, r': Rec, till: nat) {
    exists ch :: CanChange(r, ch) && r' == Changed(r, ch, till)
  }

  /** Commands and events elsewhere leave every record alone that stays. */
  lemma QuietRec(w: World, e: Event, key: SocketSpec)
    requires Shape(w) && Enabled(w, e) && !e.ProbeEnds? && !IsClientEvent(e)
    requires Present(Step(w, e), key) && Present(w, key)
    ensures RecOf(Step(w, e), key) == RecOf(w, key)
  {
    hide Step, Enabled, Shape, RecIn, PresentIn;
    match e
    case Add(remote) => AddRec(w, remote, key);
    case Remove(remote) => RemoveRec(w, remote, key);
    case Arrive => ArriveRec(w, key);
    case Elsewhere(_) => ElsewhereRec(w, e, key);
    case Close => ElsewhereRec(w, e, key);
  }

  /** A record that is there after an event is the old one, changed once, or new. */
  lemma StepRec(w: World, e: Event, key: SocketSpec)
    requires Shape(w) && Enabled(w, e) && Present(Step(w, e), key)
    ensures w.tun.Some? && Till(Step(w, e)) == Till(w)
    ensures if Present(w, key) then ChangedOnce(RecOf(w, key), RecOf(Step(w, e), key), Till(w))
            else IsNew(RecOf(Step(w, e), key))
  {
    StepOptions(w, e);
    StepPresent(w, e, key);
    hide Step, Enabled, Shape, CanChange, Changed, RecIn, IsNew, PresentIn;
    if !Present(w, key) {
      AddRec(w, key, key);
    } else if e.ProbeEnds? {
      ProbeRec(w, e.p, e.success, key);
    } else if IsClientEvent(e) {
      ClientRec(w, e, key);
    } else {
      QuietRec(w, e, key);
      SameRec(RecOf(w, key), Till(w));
    }
  }

  lemma StepGood(w: World, e: Event)
    requires Shape(w) && AllGood(w) && Enabled(w, e)
    ensures AllGood(Step(w, e))
  {
    forall key | Present(Step(w, e), key)
      ensures Good(RecOf(Step(w, e), key), Till(Step(w, e)))
    {
      StepRec(w, e, key);
      hide Step, Enabled, Shape, Good, Changed, CanChange, IsNew;
      if Present(w, key) {
        var ch :| CanChange(RecOf(w, key), ch) && RecOf(Step(w, e), key) == Changed(RecOf(w, key), ch, Till(w));
        ChangeIsGood(RecOf(w, key), ch, Till(w));
      } else {
        NewIsGood(RecOf(Step(w, e), key), Till(w));
      }
    }
  }

  /** The event is one of a client that uses the remote, and the remote is live but the
      client was given an earlier record of it, or is dead and was given to the client. */
  ghost predicate Mismatched(w: World, e: Event, key: SocketSpec)
    requires Enabled(w, e) && key in w.books
  {
    IsClientEvent(e) && Uses(w, e, key) && (IsLive(w, key) != (w.books[key].id == IdUsed(w, e)))
  }

  /** The open count of a remote that stays moves with the streams through it, except
      in a mismatched connect or disconnect; the pending count moves with the clients
      connecting to it, except in a mismatched connect or refusal. */
  lemma CountsDriftIff(w: World, e: Event, key: SocketSpec)
    requires Shape(w) && Enabled(w, e) && Present(w, key) && Present(Step(w, e), key)
    ensures var (r, r') := (RecOf(w, key), RecOf(Step(w, e), key));
            && (OpenDrift(r') != OpenDrift(r) <==> Mismatched(w, e, key) && (e.Connects? || e.Leaves?))
            && (PendingDrift(r') != PendingDrift(r) <==> Mismatched(w, e, key) && (e.Connects? || e.Refused?))
  {
    AllPresent(w, key);
    hide Step, Enabled, Shape, Changed, CanChange, ChangeFor, ChangeForProbe, RecIn, OpenDrift, PendingDrift, Uses, IdUsed;
    if IsClientEvent(e) {
      ClientRec(w, e, key);
      assert RecOf(w, key).live == IsLive(w, key);
      DriftsIff(RecOf(w, key), e, Uses(w, e, key), w.books[key].id == IdUsed(w, e), Till(w));
    } else if e.ProbeEnds? {
      ProbeRec(w, e.p, e.success, key);
      ProbeDrift(RecOf(w, key), w.probes[e.p].remote == key, e.success, Till(w));
    } else {
      QuietRec(w, e, key);
    }
  }

  lemma ProbeDrift(r: Rec, hit: bool, success: bool, till: nat)
    ensures var ch := ChangeForProbe(hit, success, r.live);
            && CanChange(r, ch)
            && OpenDrift(Changed(r, ch, till)) == OpenDrift(r) && PendingDrift(Changed(r, ch, till)) == PendingDrift(r)
  {
  }
}
