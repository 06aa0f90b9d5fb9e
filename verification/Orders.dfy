/** The order of the remotes, which selection by index depends on: what every operation
    on a tunnel does to the lists of its live and of its dead remotes. */
module Orders {
  import opened Wrappers
  import opened SocketSpecs
  import opened Tunnels
  import opened IndexMaps
  import opened TunnelInfos
  import opened Views

  /** `after` is `before` without `key`, whose place the last one has taken. */
  ghost predicate LastFillsGap(before: seq<SocketSpec>, after: seq<SocketSpec>, key: SocketSpec) {
    && |after| + 1 == |before|
    && exists i | 0 <= i < |before| ::
         && before[i] == key
         && forall j | 0 <= j < |after| :: after[j] == if j == i then before[|before| - 1] else before[j]
  }

  ghost predicate SameLists(ti: TunnelInfo, r: TunnelInfo) {
    KeyList(r.remotes) == KeyList(ti.remotes) && KeyList(r.deadRemotes) == KeyList(ti.deadRemotes)
  }

  lemma RemovedOrder<V>(m: IndexMap<V>, i: nat)
    requires i < |m|
    ensures LastFillsGap(KeyList(m), KeyList(SwapRemove(m, i)), m[i].key)
  {
    var before, after := KeyList(m), KeyList(SwapRemove(m, i));
    assert |after| == |before| - 1;
    hide KeyList, SwapRemove, LastFillsGap;
    forall j | 0 <= j < |after|
      ensures after[j] == if j == i then before[|before| - 1] else before[j]
    {
      SwapRemovedAt(m, i, j);
    }
    GapFilled(before, after, i);
  }

  lemma GapFilled(before: seq<SocketSpec>, after: seq<SocketSpec>, i: nat)
    requires i < |before| == |after| + 1
    requires forall j | 0 <= j < |after| :: after[j] == if j == i then before[|before| - 1] else before[j]
    ensures LastFillsGap(before, after, before[i])
  {
    assert before[i] == before[i];
  }

  lemma InsertedOrder<V>(m: IndexMap<V>, key: SocketSpec, value: V)
    ensures KeyList(Insert(m, key, value)) == if key in Keys(m) then KeyList(m) else KeyList(m) + [key]
  {
    var r := Insert(m, key, value);
    assert key !in Keys(m) ==> r == m + [Entry(key, value)];
    assert key in Keys(m) ==> |KeyList(r)| == |KeyList(m)|;
  }

  lemma UpdatedOrder<V>(m: IndexMap<V>, i: nat, value: V)
    requires i < |m|
    ensures KeyList(m[i := Entry(m[i].key, value)]) == KeyList(m)
  {
  }

  /** Reports and selections keep the order. */
  lemma TellOrder(ti: TunnelInfo, key: SocketSpec, report: Report)
    ensures SameLists(ti, TellRemote(ti, key, report))
  {
    var at := Find(ti.remotes, key);
    if at.Some? {
      UpdatedOrder(ti.remotes, at.value, Reported(ti.remotes[at.value].value, report));
    }
    hide KeyList;
  }

  lemma SelectOrder(ti: TunnelInfo, idx: nat)
    requires idx < |ti.remotes|
    ensures SameLists(ti, Select(ti, idx))
  {
    UpdatedOrder(ti.remotes, idx, ti.remotes[idx].value.NewPendingStream());
    hide KeyList;
  }

  /** A remote that is added becomes the last live one. */
  lemma AddOrder(ti: TunnelInfo, key: SocketSpec)
    requires AddRemote(ti, key).Some?
    ensures var r := AddRemote(ti, key).value;
            KeyList(r.remotes) == KeyList(ti.remotes) + [key] && KeyList(r.deadRemotes) == KeyList(ti.deadRemotes)
  {
    InsertedOrder(ti.remotes, key, NEW_REMOTE);
    hide KeyList, Insert;
  }

  /** Of a remote that is removed, the last in its list takes the place. */
  lemma RemoveOrder(ti: TunnelInfo, key: SocketSpec)
    requires Tidy(ti) && RemoveRemote(ti, key).Some?
    ensures var r := RemoveRemote(ti, key).value;
            if key in Live(ti)
            then LastFillsGap(KeyList(ti.remotes), KeyList(r.remotes), key) && KeyList(r.deadRemotes) == KeyList(ti.deadRemotes)
            else LastFillsGap(KeyList(ti.deadRemotes), KeyList(r.deadRemotes), key) && KeyList(r.remotes) == KeyList(ti.remotes)
  {
    var live, dead := Find(ti.remotes, key), Find(ti.deadRemotes, key);
    if live.Some? {
      RemovedOrder(ti.remotes, live.value);
    } else if dead.Some? {
      RemovedOrder(ti.deadRemotes, dead.value);
    }
    hide KeyList, LastFillsGap, SwapRemove, Find;
  }

  /** A remote that dies of an error leaves its place to the last live one and becomes
      the last dead one; any other error keeps the order. */
  lemma FailOrder(ti: TunnelInfo, key: SocketSpec, till: nat, probe: nat)
    requires Tidy(ti)
    ensures var r := FailRemote(ti, key, till, probe);
            if key in Live(ti) && Live(ti)[key].numErrors + 1 >= till
            then LastFillsGap(KeyList(ti.remotes), KeyList(r.remotes), key) && KeyList(r.deadRemotes) == KeyList(ti.deadRemotes) + [key]
            else SameLists(ti, r)
  {
    FailRemoteView(ti, key, till, probe);
    var at := Find(ti.remotes, key);
    if at.Some? {
      var info := ti.remotes[at.value].value.Error(true);
      RemovedOrder(ti.remotes, at.value);
      InsertedOrder(ti.deadRemotes, key, DeadRemote(info, Some(probe)));
      UpdatedOrder(ti.remotes, at.value, info);
    }
    hide KeyList, LastFillsGap, SwapRemove, Insert, Find;
  }

  /** A remote that recovers leaves its place to the last dead one and becomes the last
      live one. */
  lemma RecoverOrder(ti: TunnelInfo, key: SocketSpec)
    requires Tidy(ti)
    ensures var r := RecoverRemote(ti, key);
            if key in Dead(ti)
            then LastFillsGap(KeyList(ti.deadRemotes), KeyList(r.deadRemotes), key) && KeyList(r.remotes) == KeyList(ti.remotes) + [key]
            else SameLists(ti, r)
  {
    var at := Find(ti.deadRemotes, key);
    if at.Some? {
      RemovedOrder(ti.deadRemotes, at.value);
      InsertedOrder(ti.remotes, key, ti.deadRemotes[at.value].value.remote.Recovered());
    }
    hide KeyList, LastFillsGap, SwapRemove, Insert, Find;
  }

  lemma FailProbeOrder(ti: TunnelInfo, key: SocketSpec, next: nat)
    ensures SameLists(ti, FailProbe(ti, key, next))
  {
    var at := Find(ti.deadRemotes, key);
    if at.Some? {
      UpdatedOrder(ti.deadRemotes, at.value, DeadRemote(ti.deadRemotes[at.value].value.remote.Error(false), Some(next)));
    }
    hide KeyList;
  }

  // ------------------------------------------------------------ a new tunnel

  /** The elements of `s`, each where it occurs first. */
  function Firsts(s: seq<SocketSpec>): (r: seq<SocketSpec>) {
    if s == [] then []
    else
      var r, last := Firsts(s[..|s| - 1]), s[|s| - 1];
      if last in s[..|s| - 1] then r else r + [last]
  }

  lemma {:induction false} InsertAllAppend(m: IndexMap<RemoteInfo>, keys: seq<SocketSpec>, last: SocketSpec)
    ensures InsertAll(m, keys + [last]) == Insert(InsertAll(m, keys), last, NEW_REMOTE)
    decreases |keys|
  {
    if keys == [] {
      assert ([] + [last])[0] == last && ([] + [last])[1..] == [];
    } else {
      assert (keys + [last])[0] == keys[0] && (keys + [last])[1..] == keys[1..] + [last];
      InsertAllAppend(Insert(m, keys[0], NEW_REMOTE), keys[1..], last);
    }
  }

  lemma {:induction false} InsertAllOrder(keys: seq<SocketSpec>)
    ensures KeyList(InsertAll([], keys)) == Firsts(keys)
  {
    if keys != [] {
      var init, last := keys[..|keys| - 1], keys[|keys| - 1];
      assert keys == init + [last];
      InsertAllOrder(init);
      InsertAllAppend([], init, last);
      InsertedOrder(InsertAll([], init), last, NEW_REMOTE);
      InsertAllView([], init);
      hide InsertAll, Insert, KeyList;
    }
  }

  /** A new tunnel has its remotes in the order in which they were given, and round
      robin begins with the first. */
  lemma NewTunnelOrder(remotes: seq<SocketSpec>, options: TunnelOptions)
    ensures KeyList(NewTunnel(remotes, options).remotes) == Firsts(remotes)
    ensures options.strategy.RoundRobin? ==> forall idx: nat | MayChoose(NewTunnel(remotes, options), idx) :: idx == 0
  {
    InsertAllOrder(remotes);
  }
}
