/** Sums over the clients of a run. */
module Tallies {
  import opened SocketSpecs
  import opened Machine

  datatype Tally =
    | ConnectingTo(key: SocketSpec, id: nat)
    | StreamingTo(key: SocketSpec, id: nat)
    | CountedIn
    | Inside
    | EverConnected
    | Refusals
    | Sent
    | Received

  function Weigh(c: Client, t: Tally): (n: nat) {
    match t
    case ConnectingTo(key, id) => if c.pc.Connecting? && c.pc.remote == key && c.pc.id == id then 1 else 0
    case StreamingTo(key, id) => if c.pc.Streaming? && c.pc.remote == key && c.pc.id == id then 1 else 0
    case CountedIn => if c.pc.Arrived? then 0 else 1
    case Inside => if c.pc.Arrived? || c.pc.Gone? then 0 else 1
    case EverConnected => if c.connected.Some? then 1 else 0
    case Refusals => c.refusals
    case Sent => c.sent
    case Received => c.received
  }

  function Sum(clients: seq<Client>, t: Tally): (n: nat) {
    if clients == [] then 0 else Sum(clients[..|clients| - 1], t) + Weigh(clients[|clients| - 1], t)
  }

  lemma SumAppend(clients: seq<Client>, x: Client, t: Tally)
    ensures Sum(clients + [x], t) == Sum(clients, t) + Weigh(x, t)
  {
    assert (clients + [x])[..|clients|] == clients;
  }

  lemma {:induction false} SumUpdate(clients: seq<Client>, c: nat, x: Client, t: Tally)
    requires c < |clients|
    ensures Sum(clients[c := x], t) == Sum(clients, t) - Weigh(clients[c], t) + Weigh(x, t)
  {
    var last := |clients| - 1;
    if c == last {
      assert clients[c := x][..last] == clients[..last];
    } else {
      SumUpdate(clients[..last], c, x, t);
      assert clients[c := x][..last] == clients[..last][c := x];
    }
  }

  lemma {:induction false} SumMember(clients: seq<Client>, c: nat, t: Tally)
    requires c < |clients|
    ensures Weigh(clients[c], t) <= Sum(clients, t)
  {
    var last := |clients| - 1;
    if c < last {
      SumMember(clients[..last], c, t);
    }
  }

  /** Records that were never given to anyone have no clients. */
  lemma {:induction false} SumNone(clients: seq<Client>, t: Tally)
    requires forall c | 0 <= c < |clients| :: Weigh(clients[c], t) == 0
    ensures Sum(clients, t) == 0
  {
    if clients != [] {
      SumNone(clients[..|clients| - 1], t);
    }
  }

  lemma {:induction false} SumOrdered(clients: seq<Client>, t: Tally, u: Tally)
    requires forall c | 0 <= c < |clients| :: Weigh(clients[c], t) <= Weigh(clients[c], u)
    ensures Sum(clients, t) <= Sum(clients, u)
  {
    if clients != [] {
      SumOrdered(clients[..|clients| - 1], t, u);
    }
  }
}
