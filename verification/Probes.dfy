/** No dead remote is ever orphaned: each one has a probe of its own that is still
    running, and closing the tunnel aborts exactly these. */
module Probes {
  import opened Wrappers
  import opened SocketSpecs
  import opened IndexMaps
  import opened TunnelInfos
  import opened States
  import opened Views
  import opened Machine
  import opened Shapes

  predicate Names(handle: Option<nat>, probes: seq<Probe>, probe: Probe) {
    handle.Some? && handle.value < |probes| && probes[handle.value] == probe
  }

  ghost predicate Watched(dead: map<SocketSpec, DeadRemote>, key: SocketSpec, local: SocketSpec, probes: seq<Probe>)
    requires key in dead
  {
    Names(dead[key].joinHandle, probes, Probe(local, key, Unfinished))
  }

  ghost predicate AllWatched(dead: map<SocketSpec, DeadRemote>, local: SocketSpec, probes: seq<Probe>) {
    forall key | key in dead :: Watched(dead, key, local, probes)
  }

  ghost predicate NoOrphans(w: World) {
    w.tun.Some? ==> AllWatched(Dead(w.tun.value), w.local, w.probes)
  }

  /** A remote that dies, or is still dead, is given a probe that has just started. */
  lemma WatchNew(dead: map<SocketSpec, DeadRemote>, key: SocketSpec, info: RemoteInfo, local: SocketSpec, probes: seq<Probe>)
    requires AllWatched(dead - {key}, local, probes)
    ensures AllWatched(dead[key := DeadRemote(info, Some(|probes|))], local, probes + [Probe(local, key, Unfinished)])
  {
    var dead' := dead[key := DeadRemote(info, Some(|probes|))];
    forall k | k in dead'
      ensures Watched(dead', k, local, probes + [Probe(local, key, Unfinished)])
    {
      if k != key {
        assert k in dead - {key} && Watched(dead - {key}, k, local, probes);
      }
    }
  }

  /** A probe that ends watched at most its own remote. */
  lemma WatchEnds(dead: map<SocketSpec, DeadRemote>, p: nat, info: RemoteInfo, local: SocketSpec, probes: seq<Probe>)
    requires AllWatched(dead, local, probes) && p < |probes| && probes[p].tunnel == local && probes[p].status == Unfinished
    ensures var (key, ended) := (probes[p].remote, probes[p := probes[p].(status := Finished)]);
            && AllWatched(dead - {key}, local, ended)
            && (key !in dead ==> AllWatched(dead, local, ended))
            && AllWatched(dead[key := DeadRemote(info, Some(|probes|))], local, ended + [probes[p]])
  {
    var (key, ended) := (probes[p].remote, probes[p := probes[p].(status := Finished)]);
    assert forall k | k in dead - {key} :: Watched(dead, k, local, probes);
    assert key !in dead ==> dead - {key} == dead;
    assert probes[p] == Probe(local, key, Unfinished);
    WatchNew(dead, key, info, local, ended);
  }

  /** A client's event starts a probe exactly when it makes a remote dead. */
  lemma ClientKills(w: World, e: Event)
    requires Shape(w) && IsClientEvent(e) && Enabled(w, e) && w.tun.Some?
    ensures var key := KeyUsed(w, e);
            ProbesAfter(w, e) == if key.Some? && key.value in Live(w.tun.value) && Fatal(w, e, key.value)
                                 then w.probes + [Probe(w.local, key.value, Unfinished)] else w.probes
  {
    ShapeTidy(w);
    if e.Refused? {
      assert HoldsGiven(w.clients[e.c], w.births, w.tun);
      var (ti, key) := (w.tun.value, w.clients[e.c].pc.remote);
      if key in Live(ti) {
        At(ti.remotes, Find(ti.remotes, key).value);
      }
    }
    hide MayChoose, Shape, ToMap, Find;
  }

  lemma ClientWatches(w: World, e: Event)
    requires Shape(w) && NoOrphans(w) && IsClientEvent(e) && Enabled(w, e) && w.tun.Some?
    ensures TunnelAfter(w, e).Some? && AllWatched(Dead(TunnelAfter(w, e).value), w.local, ProbesAfter(w, e))
  {
    ClientViews(w, e);
    ClientKills(w, e);
    var (dead, key) := (Dead(w.tun.value), KeyUsed(w, e));
    if key.Some? && key.value in Live(w.tun.value) && Fatal(w, e, key.value) {
      assert AllWatched(dead - {key.value}, w.local, w.probes) by {
        assert forall k | k in dead :: Watched(dead, k, w.local, w.probes);
      }
      WatchNew(dead, key.value, Told(Live(w.tun.value)[key.value], e), w.local, w.probes);
    }
    hide TunnelAfter, ProbesAfter, Enabled, KeyUsed, Shape, Told, Live, Dead, Tidy, AllWatched;
  }

  lemma ProbesThen(w: World, p: nat, success: bool)
    requires p < |w.probes| && w.tun.Some?
    ensures ProbesAfterProbe(w, p, success) == w.probes[p := w.probes[p].(status := Finished)]
            + (if !success && w.probes[p].remote in Dead(w.tun.value) then [w.probes[p]] else [])
  {
  }

  lemma ProbeWatches(w: World, p: nat, success: bool)
    requires Shape(w) && NoOrphans(w) && Enabled(w, ProbeEnds(p, success)) && w.tun.Some?
    ensures TunnelAfterProbe(w, p, success).Some?
    ensures AllWatched(Dead(TunnelAfterProbe(w, p, success).value), w.local, ProbesAfterProbe(w, p, success))
  {
    var (dead, key) := (Dead(w.tun.value), w.probes[p].remote);
    assert AllWatched(dead, w.local, w.probes) && w.probes[p].tunnel == w.local && w.probes[p].status == Unfinished;
    ProbesThen(w, p, success);
    hide TunnelAfterProbe, ProbesAfterProbe, Shape, NoOrphans, Enabled, Live, Dead, Tidy, AllWatched, RemoteInfo.Error, RemoteInfo.Recovered;
    ProbeViews(w, p, success);
    WatchEnds(dead, p, if key in dead then dead[key].remote.Error(false) else NEW_REMOTE, w.local, w.probes);
    assert success || key !in dead ==> ProbesAfterProbe(w, p, success) == w.probes[p := w.probes[p].(status := Finished)];
  }

  /** Watched remotes stay so while the probes of this tunnel are left alone. */
  lemma WatchFewer(dead: map<SocketSpec, DeadRemote>, fewer: map<SocketSpec, DeadRemote>, local: SocketSpec, probes: seq<Probe>, others: seq<Probe>)
    requires AllWatched(dead, local, probes) && |others| >= |probes|
    requires forall key | key in fewer :: key in dead && fewer[key] == dead[key]
    requires forall i | 0 <= i < |probes| :: probes[i].tunnel == local ==> others[i] == probes[i]
    ensures AllWatched(fewer, local, others)
  {
    assert forall key | key in fewer :: Watched(dead, key, local, probes);
  }

  lemma QuietWatches(w: World, e: Event)
    requires Shape(w) && NoOrphans(w) && Enabled(w, e) && !IsClientEvent(e) && !e.ProbeEnds? && w.tun.Some?
    ensures NoOrphans(Step(w, e))
  {
    var (w', dead) := (Step(w, e), Dead(w.tun.value));
    if e.Add? {
      AddRemoteView(w.tun.value, e.remote);
    } else if e.Remove? {
      RemoveRemoteView(w.tun.value, e.remote);
    }
    hide AddRemote, RemoveRemote, Live, Dead, Shape, Tidy, AbortAll, AllWatched;
    if w'.tun.Some? {
      WatchFewer(dead, Dead(w'.tun.value), w.local, w.probes, w'.probes);
    }
  }

  lemma StepWatches(w: World, e: Event)
    requires Shape(w) && NoOrphans(w) && Enabled(w, e)
    ensures NoOrphans(Step(w, e))
  {
    if w.tun.None? {
      GoneStays(w, e);
    } else if IsClientEvent(e) {
      ClientWatches(w, e);
    } else if e.ProbeEnds? {
      ProbeWatches(w, e.p, e.success);
    } else {
      QuietWatches(w, e);
    }
    hide TunnelAfter, TunnelAfterProbe, ProbesAfter, ProbesAfterProbe, ClientAfter, BooksAfter, BooksAfterProbe;
    hide AddRemote, RemoveRemote, AllWatched, Shape, AbortAll, Enabled;
  }

  // --------------------------------------------------------- other tunnels

  /** Other tunnels may start probes and end them in any way, ... */
  lemma OthersMay(w: World, p: nat, status: ProbeStatus, other: Probe)
    requires other.tunnel != w.local
    ensures Enabled(w, Elsewhere(w.probes + [other]))
    ensures p < |w.probes| && w.probes[p].tunnel != w.local ==>
              Enabled(w, Elsewhere(w.probes[p := w.probes[p].(status := status)]))
  {
  }

  /** ... but neither start nor end one of this tunnel. */
  lemma OthersMayNot(w: World, others: seq<Probe>, i: nat)
    requires Enabled(w, Elsewhere(others)) && i < |others|
    requires others[i].tunnel == w.local || (i < |w.probes| && w.probes[i].tunnel == w.local)
    ensures i < |w.probes| && others[i] == w.probes[i]
  {
  }

  // ----------------------------------------------------- closing the tunnel

  /** Exactly the probes named by a dead remote are aborted, if they still run. */
  lemma {:induction false} AbortsNamed(probes: seq<Probe>, dead: IndexMap<DeadRemote>, i: nat)
    requires i < |probes|
    ensures var named := exists j | 0 <= j < |dead| :: dead[j].value.joinHandle == Some(i);
            AbortAll(probes, dead)[i]
            == if named && probes[i].status == Unfinished then probes[i].(status := Aborted) else probes[i]
  {
    if dead != [] {
      var init := dead[..|dead| - 1];
      AbortsNamed(probes, init, i);
      assert forall j | 0 <= j < |init| :: init[j] == dead[j];
    }
  }

  lemma DeadAborted(probes: seq<Probe>, dead: IndexMap<DeadRemote>, key: SocketSpec, local: SocketSpec)
    requires key in ToMap(dead) && Watched(ToMap(dead), key, local, probes)
    ensures Names(ToMap(dead)[key].joinHandle, AbortAll(probes, dead), Probe(local, key, Aborted))
  {
    var (h, j) := (ToMap(dead)[key].joinHandle.value, Find(dead, key).value);
    assert dead[j].value.joinHandle == Some(h);
    hide AbortAll, Find, ToMap;
    AbortsNamed(probes, dead, h);
  }

  /** Closing the tunnel leaves no probe of a dead remote running. */
  lemma CloseAborts(w: World, key: SocketSpec)
    requires Shape(w) && NoOrphans(w) && w.tun.Some? && key in Dead(w.tun.value)
    ensures Names(Dead(w.tun.value)[key].joinHandle, Step(w, Close).probes, Probe(w.local, key, Aborted))
  {
    assert Watched(Dead(w.tun.value), key, w.local, w.probes);
    DeadAborted(w.probes, w.tun.value.deadRemotes, key, w.local);
  }
}
