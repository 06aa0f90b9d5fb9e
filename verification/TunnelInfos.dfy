/** One tunnel's record: its totals, its live and dead remotes, and the choice of
    a remote for the next client. */
module TunnelInfos {
  import opened Wrappers
  import opened SocketSpecs
  import opened Tunnels
  import opened IndexMaps

  /** `streamsOpen` and `streamsPending` are integers here; the register of an
      optimised build holds them modulo 2^64, and one that would become negative
      panics in a debug build. */
  datatype RemoteInfo = RemoteInfo(
    bytesSent: nat, bytesReceived: nat, streamsOpen: int, streamsPending: int,
    totalConnections: nat, numErrors: nat, totalErrors: nat)
  {
    function NewPendingStream(): (r: RemoteInfo) {
      this.(streamsPending := streamsPending + 1)
    }

    function RemoteConnected(): (r: RemoteInfo) {
      this.(streamsOpen := streamsOpen + 1, totalConnections := totalConnections + 1,
            streamsPending := streamsPending - 1, numErrors := 0)
    }

    /** Only a client's error, not that of a probe, ends a pending stream. */
    function Error(byClient: bool): (r: RemoteInfo) {
      this.(totalErrors := totalErrors + 1, numErrors := numErrors + 1,
            streamsPending := if byClient then streamsPending - 1 else streamsPending)
    }

    function Recovered(): (r: RemoteInfo) {
      this.(numErrors := 0)
    }

    function MovedBytes(sent: bool, bytes: nat): (r: RemoteInfo) {
      if sent then this.(bytesSent := bytesSent + bytes) else this.(bytesReceived := bytesReceived + bytes)
    }

    function ClientDisconnected(): (r: RemoteInfo) {
      this.(streamsOpen := streamsOpen - 1)
    }
  }

  const NEW_REMOTE: RemoteInfo := RemoteInfo(0, 0, 0, 0, 0, 0, 0)

  /** A remote that is being probed by the process `joinHandle`. */
  datatype DeadRemote = DeadRemote(remote: RemoteInfo, joinHandle: Option<nat>)

  datatype TunnelInfo = TunnelInfo(
    bytesSent: nat, bytesReceived: nat, streamsOpen: int, totalConnections: nat, errors: nat,
    remotes: IndexMap<RemoteInfo>, deadRemotes: IndexMap<DeadRemote>,
    options: TunnelOptions, lastSelectedIndex: Option<nat>)

  function InsertAll(m: IndexMap<RemoteInfo>, keys: seq<SocketSpec>): (r: IndexMap<RemoteInfo>)
    decreases |keys|
  {
    if keys == [] then m else InsertAll(Insert(m, keys[0], NEW_REMOTE), keys[1..])
  }

  /** Repeated remotes are listed once. */
  function NewTunnel(remotes: seq<SocketSpec>, options: TunnelOptions): (ti: TunnelInfo) {
    TunnelInfo(0, 0, 0, 0, 0, InsertAll([], remotes), [], options, None)
  }

  // ------------------------------------------------------- choosing a remote

  const USIZE: int := 0x1_0000_0000_0000_0000

  /** The streams that are open or pending. */
  function Streams(r: RemoteInfo): (n: int) {
    r.streamsOpen + r.streamsPending
  }

  /** The load as the comparison sees it: their number in a 64-bit register. */
  function Load(r: RemoteInfo): (load: nat)
    ensures load <= 0xFFFF_FFFF_FFFF_FFFF
    ensures (r.streamsOpen + r.streamsPending - load) % 0x1_0000_0000_0000_0000 == 0
    ensures 0 <= r.streamsOpen + r.streamsPending <= 0xFFFF_FFFF_FFFF_FFFF ==> load == r.streamsOpen + r.streamsPending
  {
    Streams(r) % USIZE
  }

  ghost predicate Fits(remotes: IndexMap<RemoteInfo>) {
    forall i | 0 <= i < |remotes| :: 0 <= Streams(remotes[i].value) < USIZE
  }

  /** The first index of least load. */
  predicate IsLeastLoaded(remotes: IndexMap<RemoteInfo>, idx: nat) {
    && idx < |remotes|
    && (forall j | 0 <= j < |remotes| :: Load(remotes[idx].value) <= Load(remotes[j].value))
    && (forall j | 0 <= j < idx :: Load(remotes[idx].value) < Load(remotes[j].value))
  }

  method MinimumOpenConnectionsSelect(remotes: IndexMap<RemoteInfo>) returns (idx: nat)
    requires remotes != []
    ensures IsLeastLoaded(remotes, idx)
    ensures Fits(remotes) ==>
              && (forall j | 0 <= j < |remotes| :: Streams(remotes[idx].value) <= Streams(remotes[j].value))
              && (forall j | 0 <= j < idx :: Streams(remotes[idx].value) < Streams(remotes[j].value))
  {
    var minIdx, minVal := 0, USIZE - 1;
    for i := 0 to |remotes|
      invariant minIdx < |remotes| && (minIdx < i || minIdx == 0) && 0 <= minVal < USIZE
      invariant forall j | 0 <= j < i :: minVal <= Load(remotes[j].value)
      invariant forall j | 0 <= j < minIdx :: minVal < Load(remotes[j].value)
      invariant minVal == USIZE - 1 || (minIdx < i && Load(remotes[minIdx].value) == minVal)
      invariant minVal == USIZE - 1 ==> minIdx == 0
      invariant forall j | 0 <= j < i :: Load(remotes[j].value) > 0
    {
      var openConns := Load(remotes[i].value);
      if openConns == 0 {
        return i;
      } else if openConns < minVal {
        minIdx := i;
        minVal := openConns;
      }
    }
    return minIdx;
  }

  ghost function Laps(q: nat, size: nat): (n: nat) {
    q * size
  }

  /** `idx` comes after the last index, whatever list that was chosen from: the next
      one, less some laps around the present list. */
  ghost predicate IsNext(size: nat, last: Option<nat>, idx: nat) {
    && idx < size
    && match last
       case None => idx == 0
       case Some(l) => exists q: nat :: l + 1 == Laps(q, size) + idx
  }

  lemma RemainderIsNext(l: nat, size: nat)
    requires size > 0
    ensures IsNext(size, Some(l), (l + 1) % size)
  {
    assert l + 1 == Laps((l + 1) / size, size) + (l + 1) % size;
  }

  function RoundRobinSelect(size: nat, last: Option<nat>): (idx: nat)
    requires size > 0
    ensures IsNext(size, last, idx)
  {
    RemainderIsNext(match last case Some(l) => l case None => size - 1, size);
    ((match last case Some(l) => l case None => size - 1) + 1) % size
  }

  /** The indices the strategy of a tunnel may choose. */
  predicate MayChoose(ti: TunnelInfo, idx: nat) {
    && idx < |ti.remotes|
    && (|ti.remotes| > 1 ==>
          match ti.options.strategy
          case Random => true
          case RoundRobin => idx == RoundRobinSelect(|ti.remotes|, ti.lastSelectedIndex)
          case MinimumOpenConnections => IsLeastLoaded(ti.remotes, idx))
  }

  /** The chosen index, or None when there is no live remote. */
  method SelectRemote(ti: TunnelInfo) returns (idx: Option<nat>)
    ensures idx.None? <==> ti.remotes == []
    ensures idx.Some? ==> MayChoose(ti, idx.value)
  {
    var size := |ti.remotes|;
    if size == 0 {
      return None;
    } else if size == 1 {
      return Some(0);
    }
    match ti.options.strategy
    case Random =>
      var any: nat :| any < size;
      return Some(any);
    case RoundRobin =>
      return Some(RoundRobinSelect(size, ti.lastSelectedIndex));
    case MinimumOpenConnections =>
      var least := MinimumOpenConnectionsSelect(ti.remotes);
      return Some(least);
  }

  // ------------------------------------------------ what the operations do

  /** What a client reports about the remote it uses. */
  datatype Report = Connect | Disconnect | Transfer(sent: bool, bytes: nat)

  function Reported(r: RemoteInfo, report: Report): (r': RemoteInfo) {
    match report
    case Connect => r.RemoteConnected()
    case Disconnect => r.ClientDisconnected()
    case Transfer(sent, bytes) => r.MovedBytes(sent, bytes)
  }

  /** Only a live remote takes note. */
  function TellRemote(ti: TunnelInfo, key: SocketSpec, report: Report): (r: TunnelInfo) {
    match Find(ti.remotes, key)
    case None => ti
    case Some(i) => ti.(remotes := ti.remotes[i := Entry(key, Reported(ti.remotes[i].value, report))])
  }

  function Select(ti: TunnelInfo, idx: nat): (r: TunnelInfo)
    requires idx < |ti.remotes|
  {
    ti.(lastSelectedIndex := Some(idx),
        remotes := ti.remotes[idx := Entry(ti.remotes[idx].key, ti.remotes[idx].value.NewPendingStream())])
  }

  function AddRemote(ti: TunnelInfo, key: SocketSpec): (r: Option<TunnelInfo>) {
    if Find(ti.remotes, key).None? && Find(ti.deadRemotes, key).None?
    then Some(ti.(remotes := Insert(ti.remotes, key, NEW_REMOTE))) else None
  }

  function RemoveRemote(ti: TunnelInfo, key: SocketSpec): (r: Option<TunnelInfo>) {
    match Find(ti.remotes, key)
    case Some(i) => Some(ti.(remotes := SwapRemove(ti.remotes, i)))
    case None =>
      match Find(ti.deadRemotes, key)
      case Some(i) => Some(ti.(deadRemotes := SwapRemove(ti.deadRemotes, i)))
      case None => None
  }

  function CountClient(ti: TunnelInfo): (r: TunnelInfo) {
    ti.(totalConnections := ti.totalConnections + 1, streamsOpen := ti.streamsOpen + 1)
  }

  function ConnectRemote(ti: TunnelInfo, key: SocketSpec): (r: TunnelInfo) {
    TellRemote(ti, key, Connect)
  }

  /** Does a client's error on this remote make it dead? */
  predicate Kills(ti: TunnelInfo, key: SocketSpec, errorsTillDead: nat) {
    match Find(ti.remotes, key)
    case None => false
    case Some(i) => ti.remotes[i].value.numErrors + 1 >= errorsTillDead
  }

  /** A client's connection error; `probe` is the process started if that kills the remote. */
  function FailRemote(ti: TunnelInfo, key: SocketSpec, errorsTillDead: nat, probe: nat): (r: TunnelInfo) {
    var t := ti.(errors := ti.errors + 1);
    match Find(ti.remotes, key)
    case None => t
    case Some(i) =>
      var rec := ti.remotes[i].value.Error(true);
      if Kills(ti, key, errorsTillDead)
      then t.(remotes := SwapRemove(ti.remotes, i),
              deadRemotes := Insert(ti.deadRemotes, key, DeadRemote(rec, Some(probe))))
      else t.(remotes := ti.remotes[i := Entry(key, rec)])
  }

  /** A probe has reached the remote. */
  function RecoverRemote(ti: TunnelInfo, key: SocketSpec): (r: TunnelInfo) {
    match Find(ti.deadRemotes, key)
    case None => ti
    case Some(i) =>
      ti.(deadRemotes := SwapRemove(ti.deadRemotes, i),
          remotes := Insert(ti.remotes, key, ti.deadRemotes[i].value.remote.Recovered()))
  }

  /** A probe has failed; `next` is the process started if the remote is still dead. */
  function FailProbe(ti: TunnelInfo, key: SocketSpec, next: nat): (r: TunnelInfo) {
    var t := ti.(errors := ti.errors + 1);
    match Find(ti.deadRemotes, key)
    case None => t
    case Some(i) =>
      t.(deadRemotes := ti.deadRemotes[i := Entry(key, DeadRemote(ti.deadRemotes[i].value.remote.Error(false), Some(next)))])
  }

  function MoveBytes(ti: TunnelInfo, key: SocketSpec, sent: bool, bytes: nat): (r: TunnelInfo) {
    var t := if sent then ti.(bytesSent := ti.bytesSent + bytes) else ti.(bytesReceived := ti.bytesReceived + bytes);
    TellRemote(t, key, Transfer(sent, bytes))
  }

  function DisconnectClient(ti: TunnelInfo, key: Option<SocketSpec>): (r: TunnelInfo) {
    var t := ti.(streamsOpen := ti.streamsOpen - 1);
    match key
    case None => t
    case Some(k) => TellRemote(t, k, Disconnect)
  }
}
