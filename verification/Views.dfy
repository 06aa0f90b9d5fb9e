/** What the operations on a tunnel do to its live and dead remotes, seen as maps. */
module Views {
  import opened Wrappers
  import opened SocketSpecs
  import opened IndexMaps
  import opened TunnelInfos

  ghost function Live(ti: TunnelInfo): map<SocketSpec, RemoteInfo> {
    ToMap(ti.remotes)
  }

  ghost function Dead(ti: TunnelInfo): map<SocketSpec, DeadRemote> {
    ToMap(ti.deadRemotes)
  }

  /** No key occurs twice, be it among the live or the dead remotes or across. */
  ghost predicate Tidy(ti: TunnelInfo) {
    Distinct(ti.remotes) && Distinct(ti.deadRemotes) && Keys(ti.remotes) !! Keys(ti.deadRemotes)
  }

  /** The record of a remote, live or dead. */
  ghost function RecordOf(ti: TunnelInfo, key: SocketSpec): RemoteInfo
    requires key in Live(ti) || key in Dead(ti)
  {
    if key in Live(ti) then Live(ti)[key] else Dead(ti)[key].remote
  }

  lemma TellRemoteView(ti: TunnelInfo, key: SocketSpec, report: Report)
    requires Tidy(ti)
    ensures var r := TellRemote(ti, key, report);
            && Tidy(r) && Dead(r) == Dead(ti) && r == ti.(remotes := r.remotes) && |r.remotes| == |ti.remotes|
            && Live(r) == if key in Live(ti) then Live(ti)[key := Reported(Live(ti)[key], report)] else Live(ti)
  {
    var at := Find(ti.remotes, key);
    if at.Some? {
      UpdateEntry(ti.remotes, at.value, Reported(ti.remotes[at.value].value, report));
      At(ti.remotes, at.value);
    }
  }

  lemma SelectView(ti: TunnelInfo, idx: nat)
    requires Tidy(ti) && idx < |ti.remotes|
    ensures var (r, key) := (Select(ti, idx), ti.remotes[idx].key);
            && Tidy(r) && Dead(r) == Dead(ti) && key in Live(ti)
            && Live(r) == Live(ti)[key := Live(ti)[key].NewPendingStream()]
  {
    UpdateEntry(ti.remotes, idx, ti.remotes[idx].value.NewPendingStream());
    At(ti.remotes, idx);
  }

  lemma AddRemoteView(ti: TunnelInfo, key: SocketSpec)
    requires Tidy(ti)
    ensures AddRemote(ti, key).None? <==> key in Live(ti) || key in Dead(ti)
    ensures AddRemote(ti, key).Some? ==>
              var r := AddRemote(ti, key).value;
              Tidy(r) && Dead(r) == Dead(ti) && Live(r) == Live(ti)[key := NEW_REMOTE]
  {
    if AddRemote(ti, key).Some? {
      InsertNew(ti.remotes, key, NEW_REMOTE);
    }
  }

  lemma RemoveRemoteView(ti: TunnelInfo, key: SocketSpec)
    requires Tidy(ti)
    ensures RemoveRemote(ti, key).None? <==> key !in Live(ti) && key !in Dead(ti)
    ensures RemoveRemote(ti, key).Some? ==>
              var r := RemoveRemote(ti, key).value;
              Tidy(r) && Dead(r) == Dead(ti) - {key} && Live(r) == Live(ti) - {key}
  {
    var live, dead := Find(ti.remotes, key), Find(ti.deadRemotes, key);
    assert key !in Dead(ti) ==> Dead(ti) - {key} == Dead(ti);
    assert key !in Live(ti) ==> Live(ti) - {key} == Live(ti);
    hide ToMap, Find;
    if live.Some? {
      SwapRemoved(ti.remotes, live.value);
    } else if dead.Some? {
      SwapRemoved(ti.deadRemotes, dead.value);
    }
  }

  /** An error on a live remote counts there, and moves it if it is the last straw. */
  lemma FailRemoteView(ti: TunnelInfo, key: SocketSpec, till: nat, probe: nat)
    requires Tidy(ti)
    ensures Kills(ti, key, till) <==> key in Live(ti) && Live(ti)[key].numErrors + 1 >= till
    ensures var r := FailRemote(ti, key, till, probe);
            && Tidy(r)
            && if key !in Live(ti) then Live(r) == Live(ti) && Dead(r) == Dead(ti)
               else if Kills(ti, key, till) then
                 && Live(r) == Live(ti) - {key}
                 && Dead(r) == Dead(ti)[key := DeadRemote(Live(ti)[key].Error(true), Some(probe))]
               else Dead(r) == Dead(ti) && Live(r) == Live(ti)[key := Live(ti)[key].Error(true)]
  {
    var at := Find(ti.remotes, key);
    if at.Some? {
      At(ti.remotes, at.value);
      var rec := ti.remotes[at.value].value.Error(true);
      if Kills(ti, key, till) {
        SwapRemoved(ti.remotes, at.value);
        InsertNew(ti.deadRemotes, key, DeadRemote(rec, Some(probe)));
      } else {
        UpdateEntry(ti.remotes, at.value, rec);
      }
    }
  }

  lemma RecoverRemoteView(ti: TunnelInfo, key: SocketSpec)
    requires Tidy(ti)
    ensures var r := RecoverRemote(ti, key);
            && Tidy(r)
            && if key !in Dead(ti) then Live(r) == Live(ti) && Dead(r) == Dead(ti)
               else Dead(r) == Dead(ti) - {key} && Live(r) == Live(ti)[key := Dead(ti)[key].remote.Recovered()]
  {
    var at := Find(ti.deadRemotes, key);
    if at.Some? {
      At(ti.deadRemotes, at.value);
      SwapRemoved(ti.deadRemotes, at.value);
      InsertNew(ti.remotes, key, ti.deadRemotes[at.value].value.remote.Recovered());
    }
  }

  lemma FailProbeView(ti: TunnelInfo, key: SocketSpec, next: nat)
    requires Tidy(ti)
    ensures var r := FailProbe(ti, key, next);
            && Tidy(r) && Live(r) == Live(ti)
            && Dead(r) == if key !in Dead(ti) then Dead(ti)
                          else Dead(ti)[key := DeadRemote(Dead(ti)[key].remote.Error(false), Some(next))]
  {
    var at := Find(ti.deadRemotes, key);
    if at.Some? {
      At(ti.deadRemotes, at.value);
      UpdateEntry(ti.deadRemotes, at.value, DeadRemote(ti.deadRemotes[at.value].value.remote.Error(false), Some(next)));
    }
  }

  lemma {:induction false} InsertAllView(m: IndexMap<RemoteInfo>, keys: seq<SocketSpec>)
    requires Distinct(m) && forall key | key in ToMap(m) :: ToMap(m)[key] == NEW_REMOTE
    ensures var r := InsertAll(m, keys);
            && Distinct(r) && (forall key | key in ToMap(r) :: ToMap(r)[key] == NEW_REMOTE)
            && Keys(r) == Keys(m) + set key | key in keys
    decreases |keys|
  {
    if keys != [] {
      var key, m' := keys[0], Insert(m, keys[0], NEW_REMOTE);
      if Find(m, key).Some? {
        UpdateEntry(m, Find(m, key).value, NEW_REMOTE);
      } else {
        InsertNew(m, key, NEW_REMOTE);
      }
      InsertAllView(m', keys[1..]);
      assert keys == [key] + keys[1..];
    }
  }
}
