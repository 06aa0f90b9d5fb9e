/** One tunnel from its opening to its removal, and everything that runs
    concurrently on it: clients, probes of dead remotes and control commands.
    Every event is one critical section of the shared state, so a run is any
    sequence of events, whatever order the scheduler puts them in. */
module Machine {
  import opened Wrappers
  import opened SocketSpecs
  import opened IndexMaps
  import opened TunnelInfos
  import opened States

  /** How far the process of a client has come.  `id` tells apart the records that a remote
      has had, one for each time it was added; `till` is the error limit among the
      options the client was given with the remote. */
  datatype Pc =
    | Arrived
    | Counted
    | Choosing(left: nat)
    | Connecting(left: nat, remote: SocketSpec, id: nat, till: nat)
    | Streaming(remote: SocketSpec, id: nat)
    | Leaving
    | Gone

  /** A client with its history: how many remotes it may and did select, how many
      of them refused it, the remote it connected to, the remote it reported when it
      disconnected, and the bytes copied. */
  datatype Client = Client(
    pc: Pc, retries: nat, selections: nat, refusals: nat,
    connected: Option<SocketSpec>, reported: Option<SocketSpec>, sent: nat, received: nat)

  const NEW_CLIENT: Client := Client(Arrived, 0, 0, 0, None, None, 0, 0)

  /** The history of one record of a remote.  Its own clients are those that were
      given this record; a stray client was given an earlier record of the same
      remote.  `...Dead` counts events of own clients that found the record dead
      and so were not counted there, `stray...` those of stray clients that found
      it live and so were. */
  datatype Book = Book(
    id: nat,
    resolvedDead: nat, connectedDead: nat, leftDead: nat,
    strayResolved: nat, strayConnected: nat, strayLeft: nat,
    absorbed: nat, recoveries: nat)

  datatype World = World(
    local: SocketSpec, tun: Option<TunnelInfo>, probes: seq<Probe>,
    clients: seq<Client>, books: map<SocketSpec, Book>, births: nat, probeFailures: nat)

  datatype Event =
    | Arrive
    | CountIn(c: nat)
    | ReadRetries(c: nat)
    | SelectOk(c: nat, idx: nat)
    | SelectFails(c: nat)
    | Connects(c: nat)
    | Refused(c: nat)
    | Transfers(c: nat, sending: bool, bytes: nat)
    | Leaves(c: nat)
    | ProbeEnds(p: nat, success: bool)
    | Add(remote: SocketSpec)
    | Remove(remote: SocketSpec)
    | Close
    | Elsewhere(others: seq<Probe>)

  function NewBook(id: nat): (b: Book) {
    Book(id, 0, 0, 0, 0, 0, 0, 0, 0)
  }

  predicate IsLive(w: World, key: SocketSpec) {
    w.tun.Some? && Find(w.tun.value.remotes, key).Some?
  }

  predicate IsDead(w: World, key: SocketSpec) {
    w.tun.Some? && Find(w.tun.value.deadRemotes, key).Some?
  }

  /** What an event of a client that was given the record `id` of a remote adds
      to the book of that remote. */
  function Noted(b: Book, e: Event, id: nat, live: bool, dead: bool): (b': Book) {
    var own := b.id == id;
    match e
    case Connects(_) =>
      if live && !own then b.(strayResolved := b.strayResolved + 1, strayConnected := b.strayConnected + 1)
      else if dead && own then b.(resolvedDead := b.resolvedDead + 1, connectedDead := b.connectedDead + 1)
      else b
    case Refused(_) =>
      if live && own then b.(absorbed := b.absorbed + 1)
      else if live then b.(absorbed := b.absorbed + 1, strayResolved := b.strayResolved + 1)
      else if dead && own then b.(resolvedDead := b.resolvedDead + 1)
      else b
    case Leaves(_) =>
      if live && !own then b.(strayLeft := b.strayLeft + 1)
      else if dead && own then b.(leftDead := b.leftDead + 1)
      else b
    case _ => b
  }

  // ------------------------------------------------------------- the events

  predicate Enabled(w: World, e: Event) {
    match e
    case Arrive => true
    case CountIn(c) => c < |w.clients| && w.clients[c].pc == Arrived
    case ReadRetries(c) => c < |w.clients| && w.clients[c].pc == Counted
    case SelectOk(c, idx) =>
      && c < |w.clients| && w.clients[c].pc.Choosing? && w.clients[c].pc.left > 0
      && w.tun.Some? && MayChoose(w.tun.value, idx) && w.tun.value.remotes[idx].key in w.books
    case SelectFails(c) =>
      && c < |w.clients| && w.clients[c].pc.Choosing? && w.clients[c].pc.left > 0
      && (w.tun.None? || w.tun.value.remotes == [])
    case Connects(c) => c < |w.clients| && w.clients[c].pc.Connecting?
    case Refused(c) => c < |w.clients| && w.clients[c].pc.Connecting? && w.clients[c].pc.left > 0
    case Transfers(c, _, _) => c < |w.clients| && w.clients[c].pc.Streaming?
    case Leaves(c) =>
      c < |w.clients| && (w.clients[c].pc == Choosing(0) || w.clients[c].pc.Streaming? || w.clients[c].pc.Leaving?)
    case ProbeEnds(p, _) =>
      p < |w.probes| && w.probes[p].tunnel == w.local && w.probes[p].status == Unfinished
    case Add(_) => true
    case Remove(_) => true
    case Close => true
    case Elsewhere(others) =>
      && |others| >= |w.probes|
      && (forall i | 0 <= i < |w.probes| :: w.probes[i].tunnel == w.local ==> others[i] == w.probes[i])
      && (forall i | 0 <= i < |others| :: others[i].tunnel == w.local ==> i < |w.probes| && others[i] == w.probes[i])
  }

  predicate IsClientEvent(e: Event) {
    e.CountIn? || e.ReadRetries? || e.SelectOk? || e.SelectFails? || e.Connects? || e.Refused? || e.Transfers? || e.Leaves?
  }

  /** The remote that the client of an event uses, if any. */
  function KeyUsed(w: World, e: Event): (key: Option<SocketSpec>)
    requires IsClientEvent(e) && Enabled(w, e)
  {
    var pc := w.clients[e.c].pc;
    if e.SelectOk? then Some(w.tun.value.remotes[e.idx].key)
    else if pc.Connecting? || pc.Streaming? then Some(pc.remote) else None
  }

  /** Which of the records of that remote it was given. */
  function IdUsed(w: World, e: Event): (id: nat)
    requires IsClientEvent(e) && Enabled(w, e)
  {
    var pc := w.clients[e.c].pc;
    if e.SelectOk? then w.books[w.tun.value.remotes[e.idx].key].id
    else if pc.Connecting? || pc.Streaming? then pc.id else 0
  }

  /** What the record of a live remote takes note of. */
  function Told(info: RemoteInfo, e: Event): (info': RemoteInfo) {
    match e
    case SelectOk(_, _) => info.NewPendingStream()
    case Connects(_) => Reported(info, Connect)
    case Refused(_) => info.Error(true)
    case Transfers(_, sending, bytes) => Reported(info, Transfer(sending, bytes))
    case Leaves(_) => Reported(info, Disconnect)
    case _ => info
  }

  function ClientAfter(w: World, e: Event): (client: Client)
    requires IsClientEvent(e) && Enabled(w, e)
  {
    var client := w.clients[e.c];
    match e
    case CountIn(_) => client.(pc := Counted)
    case ReadRetries(_) =>
      if w.tun.None? then client.(pc := Gone)
      else
        var retries := w.tun.value.options.remoteConnectRetries;
        client.(pc := Choosing(retries), retries := retries)
    case SelectOk(_, idx) =>
      var key := w.tun.value.remotes[idx].key;
      client.(pc := Connecting(client.pc.left, key, w.books[key].id, w.tun.value.options.options.errorsTillDead),
              selections := client.selections + 1)
    case SelectFails(_) => client.(pc := Leaving)
    case Connects(_) =>
      client.(pc := Streaming(client.pc.remote, client.pc.id), connected := Some(client.pc.remote))
    case Refused(_) => client.(pc := Choosing(client.pc.left - 1), refusals := client.refusals + 1)
    case Transfers(_, sending, bytes) =>
      if sending then client.(sent := client.sent + bytes) else client.(received := client.received + bytes)
    case Leaves(_) => client.(pc := Gone, reported := LastRemote(client.pc))
  }

  /** The remote a client reports when it disconnects. */
  function LastRemote(pc: Pc): (remote: Option<SocketSpec>) {
    if pc.Streaming? then Some(pc.remote) else None
  }

  function TunnelAfter(w: World, e: Event): (tun: Option<TunnelInfo>)
    requires IsClientEvent(e) && Enabled(w, e)
  {
    if w.tun.None? then None else
    var ti, pc := w.tun.value, w.clients[e.c].pc;
    match e
    case CountIn(_) => Some(CountClient(ti))
    case SelectOk(_, idx) => Some(Select(ti, idx))
    case Connects(_) => Some(ConnectRemote(ti, pc.remote))
    case Refused(_) => Some(FailRemote(ti, pc.remote, pc.till, |w.probes|))
    case Transfers(_, sending, bytes) => Some(MoveBytes(ti, pc.remote, sending, bytes))
    case Leaves(_) => Some(DisconnectClient(ti, LastRemote(pc)))
    case _ => Some(ti)
  }

  function BooksAfter(w: World, e: Event): (books: map<SocketSpec, Book>)
    requires IsClientEvent(e) && Enabled(w, e)
  {
    var pc := w.clients[e.c].pc;
    if (pc.Connecting? || pc.Streaming?) && pc.remote in w.books
    then w.books[pc.remote := Noted(w.books[pc.remote], e, pc.id, IsLive(w, pc.remote), IsDead(w, pc.remote))]
    else w.books
  }

  function ProbesAfter(w: World, e: Event): (probes: seq<Probe>)
    requires IsClientEvent(e) && Enabled(w, e)
  {
    if e.Refused? && w.tun.Some? && Kills(w.tun.value, w.clients[e.c].pc.remote, w.clients[e.c].pc.till)
    then w.probes + [Probe(w.local, w.clients[e.c].pc.remote, Unfinished)] else w.probes
  }

  function ClientStep(w: World, e: Event): (w': World)
    requires IsClientEvent(e) && Enabled(w, e)
  {
    w.(clients := w.clients[e.c := ClientAfter(w, e)], tun := TunnelAfter(w, e),
       books := BooksAfter(w, e), probes := ProbesAfter(w, e))
  }

  /** The tunnel after a probe has acted on its outcome. */
  function TunnelAfterProbe(w: World, p: nat, success: bool): (tun: Option<TunnelInfo>)
    requires p < |w.probes|
  {
    if w.tun.None? then None
    else if success then Some(RecoverRemote(w.tun.value, w.probes[p].remote))
    else Some(FailProbe(w.tun.value, w.probes[p].remote, |w.probes|))
  }

  /** What the end of a probe adds to the book of a remote that it finds dead. */
  function NotedProbe(b: Book, success: bool): (b': Book) {
    if success then b.(recoveries := b.recoveries + 1) else b
  }

  function BooksAfterProbe(w: World, p: nat, success: bool): (books: map<SocketSpec, Book>)
    requires p < |w.probes|
  {
    var key := w.probes[p].remote;
    if key in w.books && IsDead(w, key) then w.books[key := NotedProbe(w.books[key], success)] else w.books
  }

  function ProbesAfterProbe(w: World, p: nat, success: bool): (probes: seq<Probe>)
    requires p < |w.probes|
  {
    w.probes[p := w.probes[p].(status := Finished)]
    + if !success && IsDead(w, w.probes[p].remote) then [w.probes[p]] else []
  }

  function Step(w: World, e: Event): (w': World)
    requires Enabled(w, e)
  {
    match e
    case Arrive => w.(clients := w.clients + [NEW_CLIENT])
    case ProbeEnds(p, success) =>
      w.(tun := TunnelAfterProbe(w, p, success), books := BooksAfterProbe(w, p, success), probes := ProbesAfterProbe(w, p, success),
         probeFailures := if success then w.probeFailures else w.probeFailures + 1)
    case Add(remote) =>
      if w.tun.None? then w
      else match AddRemote(w.tun.value, remote) {
        case None => w
        case Some(ti) => w.(tun := Some(ti), books := w.books[remote := NewBook(w.births)], births := w.births + 1)
      }
    case Remove(remote) =>
      if w.tun.None? then w
      else match RemoveRemote(w.tun.value, remote) {
        case None => w
        case Some(ti) => w.(tun := Some(ti), books := w.books - {remote})
      }
    case Close =>
      if w.tun.None? then w
      else w.(tun := None, probes := AbortAll(w.probes, w.tun.value.deadRemotes), books := map[])
    case Elsewhere(others) => w.(probes := others)
    case _ => ClientStep(w, e)
  }

  // --------------------------------------------------------------- the runs

  /** A tunnel that has just been opened, while probes of others, or of an earlier
      tunnel of the same name, may be running. */
  ghost predicate Initial(w: World) {
    && (exists remotes, options :: w.tun == Some(NewTunnel(remotes, options)))
    && w.clients == [] && w.births == 1 && w.probeFailures == 0
    && w.books.Keys == Keys(w.tun.value.remotes) && (forall key | key in w.books :: w.books[key] == NewBook(0))
  }

  /** `es` can happen one after the other from `w`. */
  ghost predicate CanRun(w: World, es: seq<Event>)
    decreases |es|
  {
    es == [] || (Enabled(w, es[0]) && CanRun(Step(w, es[0]), es[1..]))
  }

  ghost function Run(w: World, es: seq<Event>): (w': World)
    requires CanRun(w, es)
    decreases |es|
  {
    if es == [] then w else Run(Step(w, es[0]), es[1..])
  }
}
