/** The life of one record of a remote, from the moment it is added until it is
    removed, as a small state machine of its own. */
module Records {
  import opened TunnelInfos
  import opened Machine

  /** A record with its book and with its own clients that are now connecting to
      it or streaming through it. */
  datatype Rec = Rec(live: bool, info: RemoteInfo, book: Book, connecting: nat, streaming: nat)

  /** What one event can do to a record.  `Own...` and `Stray...` found it live,
      `Late...` are its own clients that found it dead. */
  datatype Change =
    | Same
    | Picked
    | OwnConnected | StrayConnected | LateConnected
    | OwnRefused | StrayRefused | LateRefused
    | OwnLeft | StrayLeft | LateLeft
    | Moved(sent: bool, bytes: nat)
    | Revived
    | ProbeFailed

  predicate CanChange(r: Rec, ch: Change) {
    match ch
    case Same => true
    case Picked => r.live
    case OwnConnected => r.live && r.connecting > 0
    case StrayConnected => r.live
    case LateConnected => !r.live && r.connecting > 0
    case OwnRefused => r.live && r.connecting > 0
    case StrayRefused => r.live
    case LateRefused => !r.live && r.connecting > 0
    case OwnLeft => r.live && r.streaming > 0
    case StrayLeft => r.live
    case LateLeft => !r.live && r.streaming > 0
    case Moved(_, _) => r.live
    case Revived => !r.live
    case ProbeFailed => !r.live
  }

  /** A client's error, after which the record is live while it is under the limit. */
  function Errs(r: Rec, till: nat): (r': Rec) {
    var info := r.info.Error(true);
    r.(info := info, live := info.numErrors < till, book := r.book.(absorbed := r.book.absorbed + 1))
  }

  function Changed(r: Rec, ch: Change, till: nat): (r': Rec)
    requires CanChange(r, ch)
  {
    var b := r.book;
    match ch
    case Same => r
    case Picked => r.(info := r.info.NewPendingStream(), connecting := r.connecting + 1)
    case OwnConnected =>
      r.(info := r.info.RemoteConnected(), connecting := r.connecting - 1, streaming := r.streaming + 1)
    case StrayConnected =>
      r.(info := r.info.RemoteConnected(),
         book := b.(strayResolved := b.strayResolved + 1, strayConnected := b.strayConnected + 1))
    case LateConnected =>
      r.(connecting := r.connecting - 1, streaming := r.streaming + 1,
         book := b.(resolvedDead := b.resolvedDead + 1, connectedDead := b.connectedDead + 1))
    case OwnRefused => Errs(r, till).(connecting := r.connecting - 1)
    case StrayRefused =>
      var e := Errs(r, till);
      e.(book := e.book.(strayResolved := b.strayResolved + 1))
    case LateRefused => r.(connecting := r.connecting - 1, book := b.(resolvedDead := b.resolvedDead + 1))
    case OwnLeft => r.(info := r.info.ClientDisconnected(), streaming := r.streaming - 1)
    case StrayLeft => r.(info := r.info.ClientDisconnected(), book := b.(strayLeft := b.strayLeft + 1))
    case LateLeft => r.(streaming := r.streaming - 1, book := b.(leftDead := b.leftDead + 1))
    case Moved(sent, bytes) => r.(info := r.info.MovedBytes(sent, bytes))
    case Revived => r.(info := r.info.Recovered(), live := true, book := NotedProbe(b, true))
    case ProbeFailed => r.(info := r.info.Error(false))
  }

  /** The change an event of a client makes to a record: `hit` says that the client
      uses this remote, `own` that it was given this very record. */
  function ChangeFor(e: Event, hit: bool, own: bool, live: bool): (ch: Change) {
    if !hit then Same
    else match e
      case SelectOk(_, _) => if live then Picked else Same
      case Connects(_) => if live then (if own then OwnConnected else StrayConnected) else if own then LateConnected else Same
      case Refused(_) => if live then (if own then OwnRefused else StrayRefused) else if own then LateRefused else Same
      case Transfers(_, sending, bytes) => if live then Moved(sending, bytes) else Same
      case Leaves(_) => if live then (if own then OwnLeft else StrayLeft) else if own then LateLeft else Same
      case _ => Same
  }

  function ConnectingDelta(e: Event, mine: bool): (d: int) {
    if !mine then 0 else if e.SelectOk? then 1 else if e.Connects? || e.Refused? then -1 else 0
  }

  function StreamingDelta(e: Event, mine: bool): (d: int) {
    if !mine then 0 else if e.Connects? then 1 else if e.Leaves? then -1 else 0
  }

  /** `r'` is what an event of a client makes of `r`: `hit` says that the client uses
      this remote, `id` which of its records it was given. */
  ghost predicate Follows(r: Rec, r': Rec, e: Event, hit: bool, id: nat, till: nat) {
    && r'.book == (if hit then Noted(r.book, e, id, r.live, !r.live) else r.book)
    && r'.info == (if hit && r.live then Told(r.info, e) else r.info)
    && r'.live == (r.live && !(hit && e.Refused? && r.info.numErrors + 1 >= till))
    && r'.connecting == r.connecting + ConnectingDelta(e, hit && r.book.id == id)
    && r'.streaming == r.streaming + StreamingDelta(e, hit && r.book.id == id)
  }

  lemma ChangeForParts(r: Rec, e: Event, id: nat, hit: bool, till: nat)
    requires e.SelectOk? && hit ==> r.live && r.book.id == id
    requires ConnectingDelta(e, hit && r.book.id == id) + r.connecting >= 0
    requires StreamingDelta(e, hit && r.book.id == id) + r.streaming >= 0
    ensures var ch := ChangeFor(e, hit, r.book.id == id, r.live);
            CanChange(r, ch) && Follows(r, Changed(r, ch, till), e, hit, id, till)
  {
  }

  lemma FollowsOnce(r: Rec, r1: Rec, r2: Rec, e: Event, hit: bool, id: nat, till: nat)
    requires Follows(r, r1, e, hit, id, till) && Follows(r, r2, e, hit, id, till)
    ensures r1 == r2
  {
  }

  /** The change the end of a probe makes to a record. */
  function ChangeForProbe(hit: bool, success: bool, live: bool): (ch: Change) {
    if !hit || live then Same else if success then Revived else ProbeFailed
  }

  lemma ChangeForProbeParts(r: Rec, hit: bool, success: bool, till: nat)
    ensures var ch := ChangeForProbe(hit, success, r.live);
            && CanChange(r, ch)
            && var r' := Changed(r, ch, till);
               && r'.live == (r.live || (hit && success))
               && r'.info == (if r.live || !hit then r.info else if success then r.info.Recovered() else r.info.Error(false))
               && r'.book == (if hit && !r.live then NotedProbe(r.book, success) else r.book)
               && r'.connecting == r.connecting && r'.streaming == r.streaming
  {
  }

  /** A record that has just been added. */
  predicate IsNew(r: Rec) {
    r.live && r.info == NEW_REMOTE && r.book == NewBook(r.book.id) && r.connecting == 0 && r.streaming == 0
  }

  // ---------------------------------------------------------- what holds then

  /** The accounts: pending streams are the own clients now connecting, plus the
      resolutions that found the record dead, minus those of strays; open streams
      likewise, with connects and disconnects on opposite sides. */
  ghost predicate Balanced(r: Rec) {
    && r.info.streamsPending == r.connecting + r.book.resolvedDead - r.book.strayResolved
    && r.info.streamsOpen == r.streaming + r.book.leftDead + r.book.strayConnected - r.book.connectedDead - r.book.strayLeft
  }

  /** The number of errors in a row that make a remote dead: at least one. */
  function Limit(till: nat): (m: nat)
    ensures m >= 1
  {
    if till == 0 then 1 else till
  }

  /** A record is live exactly while it is under the limit. */
  ghost predicate Thresholded(r: Rec, till: nat) {
    r.live <==> r.info.numErrors < Limit(till)
  }

  /** The errors of clients that a record absorbed while live are paid for: by
      its first life, its successful connects and its recoveries. */
  ghost predicate Amortised(r: Rec, till: nat) {
    r.book.absorbed <= Limit(till) * (r.info.totalConnections + r.book.recoveries)
                       + if r.live then r.info.numErrors else Limit(till)
  }

  ghost predicate Good(r: Rec, till: nat) {
    Balanced(r) && Thresholded(r, till) && Amortised(r, till)
  }

  lemma NewIsGood(r: Rec, till: nat)
    requires IsNew(r)
    ensures Good(r, till)
  {
  }

  lemma PayOne(m: nat, n: nat)
    ensures m * (n + 1) == m * n + m
  {
  }

  lemma ChangeIsGood(r: Rec, ch: Change, till: nat)
    requires Good(r, till) && CanChange(r, ch)
    ensures Good(Changed(r, ch, till), till)
  {
    PayOne(Limit(till), r.info.totalConnections + r.book.recoveries);
  }

  /** How far the open and the pending count are from the streams that there are. */
  function OpenDrift(r: Rec): (d: int) {
    r.info.streamsOpen - r.streaming
  }

  function PendingDrift(r: Rec): (d: int) {
    r.info.streamsPending - r.connecting
  }

  /** A client's event drifts a count exactly when it resolves or ends a stream on a
      live record that the client was not given, or on a dead one that it was. */
  lemma DriftsIff(r: Rec, e: Event, hit: bool, own: bool, till: nat)
    requires CanChange(r, ChangeFor(e, hit, own, r.live))
    ensures var r' := Changed(r, ChangeFor(e, hit, own, r.live), till);
            && (OpenDrift(r') != OpenDrift(r) <==> hit && r.live != own && (e.Connects? || e.Leaves?))
            && (PendingDrift(r') != PendingDrift(r) <==> hit && r.live != own && (e.Connects? || e.Refused?))
  {
  }

  /** The failure bound: each connect and each recovery buys a limit of errors, and
      so does the first life. */
  ghost predicate WithinBound(errors: nat, connects: nat, recoveries: nat, till: nat) {
    errors <= Limit(till) * (1 + connects + recoveries)
  }

  lemma FailureBound(r: Rec, till: nat)
    requires Good(r, till)
    ensures WithinBound(r.book.absorbed, r.info.totalConnections, r.book.recoveries, till)
  {
    PayOne(Limit(till), r.info.totalConnections + r.book.recoveries);
  }
}
