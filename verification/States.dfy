/** The proxy's shared state: the open tunnels and the probes of dead remotes.
    Every method is one critical section on the record of one tunnel. */
module States {
  import opened Wrappers
  import opened SocketSpecs
  import opened Tunnels
  import opened IndexMaps
  import opened TunnelInfos

  datatype StateError = TunnelExists | TunnelDoesNotExist | RemoteExists | RemoteDoesNotExist | NoRemote

  datatype ProbeStatus = Unfinished | Finished | Aborted

  /** A spawned task that checks one dead remote of one tunnel. */
  datatype Probe = Probe(tunnel: SocketSpec, remote: SocketSpec, status: ProbeStatus)

  function Lookup(tunnels: map<SocketSpec, TunnelInfo>, key: SocketSpec): (ti: Option<TunnelInfo>) {
    if key in tunnels then Some(tunnels[key]) else None
  }

  /** Replaces the record of an open tunnel and nothing else. */
  function Modify(tunnels: map<SocketSpec, TunnelInfo>, key: SocketSpec, f: TunnelInfo -> TunnelInfo): (r: map<SocketSpec, TunnelInfo>) {
    if key in tunnels then tunnels[key := f(tunnels[key])] else tunnels
  }

  /** Aborting a task that has finished has no effect. */
  function Abort(probes: seq<Probe>, handle: nat): (r: seq<Probe>)
    ensures |r| == |probes|
  {
    if handle < |probes| && probes[handle].status == Unfinished
    then probes[handle := probes[handle].(status := Aborted)] else probes
  }

  function AbortAll(probes: seq<Probe>, dead: IndexMap<DeadRemote>): (r: seq<Probe>)
    ensures |r| == |probes|
  {
    if dead == [] then probes
    else
      var p := AbortAll(probes, dead[..|dead| - 1]);
      match dead[|dead| - 1].value.joinHandle
      case None => p
      case Some(h) => Abort(p, h)
  }

  class State {
    var tunnels: map<SocketSpec, TunnelInfo>
    var probes: seq<Probe>

    constructor ()
      ensures tunnels == map[] && probes == []
    {
      tunnels, probes := map[], [];
    }

    method AddTunnel(local: SocketSpec, remotes: seq<SocketSpec>, options: TunnelOptions) returns (r: Result<(), StateError>)
      modifies this
      ensures probes == old(probes)
      ensures r == if local in old(tunnels) then Err(TunnelExists) else Ok(())
      ensures tunnels == if r.Ok? then old(tunnels)[local := NewTunnel(remotes, options)] else old(tunnels)
    {
      if local in tunnels {
        return Err(TunnelExists);
      }
      var m: IndexMap<RemoteInfo> := [];
      for i := 0 to |remotes|
        invariant InsertAll(m, remotes[i..]) == InsertAll([], remotes)
      {
        assert remotes[i..][0] == remotes[i] && remotes[i..][1..] == remotes[i + 1..];
        m := Insert(m, remotes[i], NEW_REMOTE);
      }
      tunnels := tunnels[local := TunnelInfo(0, 0, 0, 0, 0, m, [], options, None)];
      return Ok(());
    }

    /** The probes named by the dead remotes are aborted. */
    method RemoveTunnel(local: SocketSpec) returns (r: Result<TunnelInfo, StateError>)
      modifies this
      ensures r == if local in old(tunnels) then Ok(old(tunnels)[local]) else Err(TunnelDoesNotExist)
      ensures tunnels == old(tunnels) - {local}
      ensures probes == if r.Ok? then AbortAll(old(probes), r.value.deadRemotes) else old(probes)
    {
      if local !in tunnels {
        return Err(TunnelDoesNotExist);
      }
      var ti := tunnels[local];
      tunnels := tunnels - {local};
      ghost var before := probes;
      for i := 0 to |ti.deadRemotes|
        invariant probes == AbortAll(before, ti.deadRemotes[..i]) && tunnels == old(tunnels) - {local}
      {
        assert ti.deadRemotes[..i + 1][..i] == ti.deadRemotes[..i];
        var handle := ti.deadRemotes[i].value.joinHandle;
        if handle.Some? {
          probes := Abort(probes, handle.value);
        }
      }
      assert ti.deadRemotes[..|ti.deadRemotes|] == ti.deadRemotes;
      return Ok(ti);
    }

    method AddRemoteToTunnel(local: SocketSpec, remote: SocketSpec) returns (r: Result<(), StateError>)
      modifies this
      ensures probes == old(probes)
      ensures r == if local !in old(tunnels) then Err(TunnelDoesNotExist)
                   else if AddRemote(old(tunnels)[local], remote).None? then Err(RemoteExists) else Ok(())
      ensures tunnels == if r.Ok? then old(tunnels)[local := AddRemote(old(tunnels)[local], remote).value] else old(tunnels)
    {
      if local !in tunnels {
        return Err(TunnelDoesNotExist);
      }
      var ti := tunnels[local];
      if Find(ti.remotes, remote).Some? || Find(ti.deadRemotes, remote).Some? {
        return Err(RemoteExists);
      }
      tunnels := tunnels[local := ti.(remotes := Insert(ti.remotes, remote, NEW_REMOTE))];
      return Ok(());
    }

    method RemoveRemoteFromTunnel(local: SocketSpec, remote: SocketSpec) returns (r: Result<RemoteInfo, StateError>)
      modifies this
      ensures probes == old(probes)
      ensures local !in old(tunnels) ==> r == Err(TunnelDoesNotExist)
      ensures local in old(tunnels) ==>
                var ti := old(tunnels)[local];
                r == if remote in Keys(ti.remotes) then Ok(ToMap(ti.remotes)[remote])
                     else if remote in Keys(ti.deadRemotes) then Ok(ToMap(ti.deadRemotes)[remote].remote)
                     else Err(RemoteDoesNotExist)
      ensures tunnels == if r.Ok? then old(tunnels)[local := RemoveRemote(old(tunnels)[local], remote).value] else old(tunnels)
    {
      if local !in tunnels {
        return Err(TunnelDoesNotExist);
      }
      var ti := tunnels[local];
      var live := Find(ti.remotes, remote);
      if live.Some? {
        tunnels := tunnels[local := ti.(remotes := SwapRemove(ti.remotes, live.value))];
        return Ok(ti.remotes[live.value].value);
      }
      var dead := Find(ti.deadRemotes, remote);
      if dead.Some? {
        tunnels := tunnels[local := ti.(deadRemotes := SwapRemove(ti.deadRemotes, dead.value))];
        return Ok(ti.deadRemotes[dead.value].value.remote);
      }
      return Err(RemoteDoesNotExist);
    }

    method RemoteRetries(local: SocketSpec) returns (r: Result<nat, StateError>)
      ensures r == if local in tunnels then Ok(tunnels[local].options.remoteConnectRetries) else Err(TunnelDoesNotExist)
    {
      return if local in tunnels then Ok(tunnels[local].options.remoteConnectRetries) else Err(TunnelDoesNotExist);
    }

    /** Selection yields a live remote and makes one more stream pending there; it
        fails only if the tunnel is gone or no remote is live. */
    method SelectRemote(local: SocketSpec) returns (r: Result<(SocketSpec, RemoteOptions), StateError>, idx: nat)
      modifies this
      ensures probes == old(probes)
      ensures local !in old(tunnels) ==> r == Err(TunnelDoesNotExist)
      ensures local in old(tunnels) && old(tunnels)[local].remotes == [] ==> r == Err(NoRemote)
      ensures local in old(tunnels) && old(tunnels)[local].remotes != [] ==>
                var ti := old(tunnels)[local];
                && MayChoose(ti, idx) && r == Ok((ti.remotes[idx].key, ti.options.options))
                && tunnels == old(tunnels)[local := Select(ti, idx)]
      ensures r.Err? ==> tunnels == old(tunnels)
    {
      if local !in tunnels {
        return Err(TunnelDoesNotExist), 0;
      }
      var ti := tunnels[local];
      var selected := TunnelInfos.SelectRemote(ti);
      if selected.None? {
        return Err(NoRemote), 0;
      }
      ti := ti.(lastSelectedIndex := selected);
      var entry := ti.remotes[selected.value];
      ti := ti.(remotes := ti.remotes[selected.value := Entry(entry.key, entry.value.NewPendingStream())]);
      tunnels := tunnels[local := ti];
      return Ok((entry.key, ti.options.options)), selected.value;
    }

    method ClientConnected(local: SocketSpec)
      modifies this
      ensures probes == old(probes) && tunnels == Modify(old(tunnels), local, CountClient)
    {
      if local in tunnels {
        var rec := tunnels[local];
        rec := rec.(totalConnections := rec.totalConnections + 1);
        rec := rec.(streamsOpen := rec.streamsOpen + 1);
        tunnels := tunnels[local := rec];
      }
    }

    method RemoteConnected(local: SocketSpec, remote: SocketSpec)
      modifies this
      ensures probes == old(probes)
      ensures tunnels == Modify(old(tunnels), local, (ti: TunnelInfo) => ConnectRemote(ti, remote))
    {
      if local in tunnels {
        var rec := tunnels[local];
        var at := Find(rec.remotes, remote);
        if at.Some? {
          var r := rec.remotes[at.value].value;
          r := r.(streamsOpen := r.streamsOpen + 1);
          r := r.(totalConnections := r.totalConnections + 1);
          r := r.(streamsPending := r.streamsPending - 1);
          r := r.(numErrors := 0);
          rec := rec.(remotes := rec.remotes[at.value := Entry(remote, r)]);
        }
        tunnels := tunnels[local := rec];
      }
    }

    /** Starts a process that will probe the remote. */
    method CheckDead(local: SocketSpec, remote: SocketSpec) returns (joinHandle: nat)
      modifies `probes
      ensures joinHandle == old(|probes|) && probes == old(probes) + [Probe(local, remote, Unfinished)]
    {
      joinHandle := |probes|;
      probes := probes + [Probe(local, remote, Unfinished)];
    }

    /** `options` are those that the client was given when it selected the remote. */
    method RemoteError(local: SocketSpec, remote: SocketSpec, options: RemoteOptions)
      modifies this
      ensures var probe := old(|probes|);
              tunnels == Modify(old(tunnels), local, (ti: TunnelInfo) => FailRemote(ti, remote, options.errorsTillDead, probe))
      ensures probes == if local in old(tunnels) && Kills(old(tunnels)[local], remote, options.errorsTillDead)
                        then old(probes) + [Probe(local, remote, Unfinished)] else old(probes)
    {
      if local in tunnels {
        var tunnel := tunnels[local];
        tunnel := tunnel.(errors := tunnel.errors + 1);
        var isDead := false;
        var at := Find(tunnel.remotes, remote);
        if at.Some? {
          var info := tunnel.remotes[at.value].value.Error(true);
          isDead := info.numErrors >= options.errorsTillDead;
          if isDead {
            var joinHandle := CheckDead(local, remote);
            tunnel := tunnel.(remotes := SwapRemove(tunnel.remotes, at.value),
                              deadRemotes := Insert(tunnel.deadRemotes, remote, DeadRemote(info, Some(joinHandle))));
          } else {
            tunnel := tunnel.(remotes := tunnel.remotes[at.value := Entry(remote, info)]);
          }
        }
        tunnels := tunnels[local := tunnel];
      }
    }

    /** A probe acts on the outcome of its connection attempt, and ends. */
    method FinishProbe(p: nat, connected: bool)
      requires p < |probes| && probes[p].status == Unfinished
      modifies this
      ensures var (probe, next) := (old(probes[p]), old(|probes|));
              && tunnels == Modify(old(tunnels), probe.tunnel, (ti: TunnelInfo) =>
                              if connected then RecoverRemote(ti, probe.remote) else FailProbe(ti, probe.remote, next))
              && probes == old(probes)[p := probe.(status := Finished)]
                           + (if !connected && StillDead(old(tunnels), probe) then [probe] else [])
    {
      var local, remote := probes[p].tunnel, probes[p].remote;
      probes := probes[p := probes[p].(status := Finished)];
      if local in tunnels {
        var tunnel := tunnels[local];
        if connected {
          var at := Find(tunnel.deadRemotes, remote);
          if at.Some? {
            var rec := tunnel.deadRemotes[at.value].value.remote.Recovered();
            tunnel := tunnel.(deadRemotes := SwapRemove(tunnel.deadRemotes, at.value));
            tunnel := tunnel.(remotes := Insert(tunnel.remotes, remote, rec));
          }
        } else {
          tunnel := tunnel.(errors := tunnel.errors + 1);
          var at := Find(tunnel.deadRemotes, remote);
          if at.Some? {
            var info := tunnel.deadRemotes[at.value].value.remote.Error(false);
            var newHandle := CheckDead(local, remote);
            tunnel := tunnel.(deadRemotes := tunnel.deadRemotes[at.value := Entry(remote, DeadRemote(info, Some(newHandle)))]);
          }
        }
        tunnels := tunnels[local := tunnel];
      }
    }

    method UpdateTransferred(local: SocketSpec, remote: SocketSpec, sent: bool, bytes: nat)
      modifies this
      ensures probes == old(probes)
      ensures tunnels == Modify(old(tunnels), local, (ti: TunnelInfo) => MoveBytes(ti, remote, sent, bytes))
    {
      if local in tunnels {
        var rec := tunnels[local];
        if sent {
          rec := rec.(bytesSent := rec.bytesSent + bytes);
        } else {
          rec := rec.(bytesReceived := rec.bytesReceived + bytes);
        }
        var at := Find(rec.remotes, remote);
        if at.Some? {
          rec := rec.(remotes := rec.remotes[at.value := Entry(remote, rec.remotes[at.value].value.MovedBytes(sent, bytes))]);
        }
        tunnels := tunnels[local := rec];
      }
    }

    method ClientDisconnected(local: SocketSpec, remote: Option<SocketSpec>)
      modifies this
      ensures probes == old(probes)
      ensures tunnels == Modify(old(tunnels), local, (ti: TunnelInfo) => DisconnectClient(ti, remote))
    {
      if local in tunnels {
        var rec := tunnels[local];
        rec := rec.(streamsOpen := rec.streamsOpen - 1);
        if remote.Some? {
          var at := Find(rec.remotes, remote.value);
          if at.Some? {
            var r := rec.remotes[at.value].value;
            r := r.(streamsOpen := r.streamsOpen - 1);
            rec := rec.(remotes := rec.remotes[at.value := Entry(remote.value, r)]);
          }
        }
        tunnels := tunnels[local := rec];
      }
    }
  }

  predicate StillDead(tunnels: map<SocketSpec, TunnelInfo>, probe: Probe) {
    probe.tunnel in tunnels && Find(tunnels[probe.tunnel].deadRemotes, probe.remote).Some?
  }
}
