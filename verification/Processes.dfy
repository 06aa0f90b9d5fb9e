/** The program that serves one client, over the shared state, interrupted by the
    events of everybody else between any two of its critical sections.  Its steps are
    the client's events of a run, so all that holds of runs holds of it. */
module Processes {
  import opened Wrappers
  import opened SocketSpecs
  import opened Tunnels
  import opened IndexMaps
  import opened TunnelInfos
  import opened States
  import opened Views
  import opened Machine
  import opened Shapes
  import opened Lifecycles
  import opened Accounts
  import opened Totals
  import opened Runs
  import opened Probes
  import opened Endpoints
  import opened Relay
  import opened Schedules

  /** A client's process since `begin`, when `turn` blocks of the schedule had passed:
      the events that it has performed itself. */
  datatype Visit = Visit(begin: Moment, turn: nat, mine: seq<Event>)
  {
    function And(e: Event): (v: Visit)
      ensures v == Visit(begin, turn, mine + [e])
    {
      this.(mine := mine + [e])
    }
  }

  datatype Attempted = NotSelected | NotConnected | Relayed(remote: SocketSpec, res: IoPoll<(nat, nat)>)

  /** A tunnel of the proxy together with the run so far: `world` is what `trace`
      leads to from `begun`.  `schedule` is what all others do, in blocks. */
  class Runtime {
    const state: State
    const local: SocketSpec
    const schedule: seq<seq<Event>>
    var turn: nat
    var world: World
    ghost const begun: World
    ghost var trace: seq<Event>

    /** The shared state is that of the run. */
    ghost predicate Agrees()
      reads this, state
    {
      world.local == local && world.tun == Lookup(state.tunnels, local) && world.probes == state.probes
    }

    ghost predicate Traced()
      reads this
    {
      Invariant(begun) && CanRun(begun, trace) && Run(begun, trace) == world
    }

    ghost predicate Valid()
      reads this, state
    {
      Agrees() && Traced()
    }

    ghost function Now(): (m: Moment)
      reads this
    {
      Moment(world, trace)
    }

    /** Since the visit began, nothing has happened but the blocks of the schedule,
        one before each event of the client's process. */
    ghost predicate Follows(c: nat, v: Visit)
      reads this
    {
      && Now() == Woven(v.begin, schedule, v.turn, c, v.mine)
      && turn == v.turn + |v.mine| && AllOwn(v.mine, c)
    }

    ghost predicate Has(c: nat, client: Client)
      reads this
    {
      c < |world.clients| && world.clients[c] == client
    }

    constructor (state: State, world: World, schedule: seq<seq<Event>>)
      requires Invariant(world) && world.tun == Lookup(state.tunnels, world.local) && world.probes == state.probes
      ensures Valid() && this.state == state && this.local == world.local && this.schedule == schedule && turn == 0
      ensures this.world == world == begun && trace == []
    {
      this.state, this.local, this.world, this.begun, this.trace := state, world.local, world, world, [];
      this.schedule, turn := schedule, 0;
    }

    lemma TracedInvariant()
      requires Traced()
      ensures Invariant(world)
    {
      RunInvariant(begun, trace);
    }

    /** Records that an event has happened to the state. */
    method Note(e: Event)
      requires Traced() && Enabled(world, e) && world.local == local
      requires Step(world, e).tun == Lookup(state.tunnels, local) && Step(world, e).probes == state.probes
      modifies `world, `trace
      ensures Valid() && Now() == Moment(Step(old(world), e), old(trace) + [e])
    {
      RunAppend(begun, trace, e);
      LocalKept(world, e);
      hide Step, Enabled, Invariant, CanRun, Run;
      world, trace := Step(world, e), trace + [e];
    }

    /** The next block of the schedule happens. */
    method Others(c: nat)
      requires Valid() && c < |world.clients|
      modifies this, state
      ensures Valid() && Has(c, old(world).clients[c]) && turn == old(turn) + 1
      ensures Now() == Meanwhile(old(Now()), Block(schedule, old(turn)), c)
    {
      var block := Block(schedule, turn);
      turn := turn + 1;
      hide Step, Enabled, Invariant, CanRun, Run, Meanwhile;
      MeanwhileNothing(Now(), c);
      for i := 0 to |block|
        invariant Valid() && Has(c, old(world).clients[c]) && turn == old(turn) + 1
        invariant Now() == Meanwhile(old(Now()), block[..i], c)
      {
        MeanwhileMore(old(Now()), block, i, c);
        var e := block[i];
        if Enabled(world, e) && !IsOwn(e, c) {
          OthersLeaveClientAlone(world, e, c);
          var next := Step(world, e);
          state.tunnels := if next.tun.Some? then state.tunnels[local := next.tun.value] else state.tunnels - {local};
          state.probes := next.probes;
          Note(e);
        }
      }
      assert block[..|block|] == block;
    }

    // ------------------------------------------- the client's critical sections
    // Each comes after the next block of the others.

    /** The client's own event, after the block, continues the visit. */
    lemma Continued(c: nat, v: Visit, between: Moment, e: Event)
      requires between == Meanwhile(Woven(v.begin, schedule, v.turn, c, v.mine), Block(schedule, v.turn + |v.mine|), c)
      requires Enabled(between.world, e) && Now() == Moment(Step(between.world, e), between.trace + [e])
      requires turn == v.turn + |v.mine| + 1 && AllOwn(v.mine, c) && IsOwn(e, c)
      ensures Follows(c, v.And(e))
    {
      WovenMore(v.begin, schedule, v.turn, c, v.mine, e);
      hide Woven, Meanwhile, Step, Enabled, Block;
    }

    method ClientConnected(c: nat, ghost me: Client, ghost v: Visit)
      requires Valid() && Follows(c, v) && Has(c, me) && me.pc == Arrived
      modifies this, state
      ensures Valid() && Follows(c, v.And(CountIn(c))) && Has(c, me.(pc := Counted))
    {
      hide Invariant, CanRun, Run, Meanwhile, Woven, Block;
      Others(c);
      ghost var between := Now();
      state.ClientConnected(local);
      Note(CountIn(c));
      Continued(c, v, between, CountIn(c));
    }

    method RemoteRetries(c: nat, ghost me: Client, ghost v: Visit) returns (r: Result<nat, StateError>)
      requires Valid() && Follows(c, v) && Has(c, me) && me.pc == Counted
      modifies this, state
      ensures Valid() && Follows(c, v.And(ReadRetries(c)))
      ensures Has(c, if r.Err? then me.(pc := Gone) else me.(pc := Choosing(r.value), retries := r.value))
    {
      hide Invariant, CanRun, Run, Meanwhile, Woven, Block;
      Others(c);
      ghost var between := Now();
      r := state.RemoteRetries(local);
      Note(ReadRetries(c));
      Continued(c, v, between, ReadRetries(c));
    }

    method SelectRemote(c: nat, ghost me: Client, ghost v: Visit)
      returns (r: Result<(SocketSpec, RemoteOptions), StateError>, ghost id: nat, ghost e: Event)
      requires Valid() && Follows(c, v) && Has(c, me) && me.pc.Choosing? && me.pc.left > 0
      modifies this, state
      ensures Valid() && Follows(c, v.And(e))
      ensures if r.Err? then e == SelectFails(c) else e.SelectOk? && e.c == c
      ensures Has(c, if r.Err? then me.(pc := Leaving)
                     else me.(pc := Connecting(me.pc.left, r.value.0, id, r.value.1.errorsTillDead), selections := me.selections + 1))
    {
      hide CanRun, Run, Shape, MayChoose, AllGood, NoOrphans, AllOrderly, AllGivenRetries, TotalsExact, Dominated;
      hide Meanwhile, Woven, Block;
      Others(c);
      ghost var between := Now();
      TracedInvariant();
      var idx: nat;
      r, idx := state.SelectRemote(local);
      SelectionGuard(between.world, c, idx);
      if r.Ok? {
        id, e := between.world.books[r.value.0].id, SelectOk(c, idx);
        Note(SelectOk(c, idx));
      } else {
        id, e := 0, SelectFails(c);
        Note(SelectFails(c));
      }
      Continued(c, v, between, e);
    }

    method RemoteConnected(c: nat, remote: SocketSpec, ghost me: Client, ghost v: Visit)
      requires Valid() && Follows(c, v) && Has(c, me) && me.pc.Connecting? && me.pc.remote == remote
      modifies this, state
      ensures Valid() && Follows(c, v.And(Connects(c)))
      ensures Has(c, me.(pc := Streaming(remote, me.pc.id), connected := Some(remote)))
    {
      hide Invariant, CanRun, Run, Meanwhile, Woven, Block;
      Others(c);
      ghost var between := Now();
      state.RemoteConnected(local, remote);
      Note(Connects(c));
      Continued(c, v, between, Connects(c));
    }

    method RemoteError(c: nat, remote: SocketSpec, options: RemoteOptions, ghost me: Client, ghost v: Visit)
      requires Valid() && Follows(c, v) && Has(c, me) && me.pc.Connecting? && me.pc.left > 0
      requires me.pc.remote == remote && me.pc.till == options.errorsTillDead
      modifies this, state
      ensures Valid() && Follows(c, v.And(Refused(c)))
      ensures Has(c, me.(pc := Choosing(me.pc.left - 1), refusals := me.refusals + 1))
    {
      hide Invariant, CanRun, Run, Meanwhile, Woven, Block;
      Others(c);
      ghost var between := Now();
      state.RemoteError(local, remote, options);
      Note(Refused(c));
      Continued(c, v, between, Refused(c));
    }

    method UpdateTransferred(c: nat, remote: SocketSpec, sent: bool, bytes: nat, ghost me: Client, ghost v: Visit)
      requires Valid() && Follows(c, v) && Has(c, me) && me.pc.Streaming? && me.pc.remote == remote
      modifies this, state
      ensures Valid() && Follows(c, v.And(Transfers(c, sent, bytes)))
      ensures Has(c, if sent then me.(sent := me.sent + bytes) else me.(received := me.received + bytes))
    {
      hide Invariant, CanRun, Run, Meanwhile, Woven, Block;
      Others(c);
      ghost var between := Now();
      state.UpdateTransferred(local, remote, sent, bytes);
      Note(Transfers(c, sent, bytes));
      Continued(c, v, between, Transfers(c, sent, bytes));
    }

    method ClientDisconnected(c: nat, remote: Option<SocketSpec>, ghost me: Client, ghost v: Visit)
      requires Valid() && Follows(c, v) && Has(c, me) && remote == (if me.pc.Streaming? then Some(me.pc.remote) else None)
      requires me.pc == Choosing(0) || me.pc.Streaming? || me.pc.Leaving?
      modifies this, state
      ensures Valid() && Follows(c, v.And(Leaves(c))) && Has(c, me.(pc := Gone, reported := remote))
    {
      hide Invariant, CanRun, Run, Meanwhile, Woven, Block;
      Others(c);
      ghost var between := Now();
      state.ClientDisconnected(local, remote);
      Note(Leaves(c));
      Continued(c, v, between, Leaves(c));
    }

    // ------------------------------------------------------ the whole program

    /** All reports of both directions of the relay, in any interleaving. */
    method ReportAll(c: nat, remote: SocketSpec, sent: seq<nat>, received: seq<nat>, ghost me: Client, ghost v: Visit)
      returns (ghost v': Visit)
      requires Valid() && Follows(c, v) && Has(c, me) && me.pc.Streaming? && me.pc.remote == remote
      modifies this, state
      ensures Valid() && Follows(c, v') && v' == v.(mine := v'.mine)
      ensures Has(c, me.(sent := me.sent + Endpoints.Total(sent), received := me.received + Endpoints.Total(received)))
    {
      var i, j := 0, 0;
      ghost var now := me;
      v' := v;
      hide Agrees, Traced, Has, Follows;
      while i < |sent| || j < |received|
        invariant i <= |sent| && j <= |received| && Valid() && Has(c, now)
        invariant Follows(c, v') && v' == v.(mine := v'.mine)
        invariant now == me.(sent := me.sent + Endpoints.Total(sent[..i]), received := me.received + Endpoints.Total(received[..j]))
        decreases |sent| - i + |received| - j
      {
        var up: bool := *;
        if j == |received| || (up && i < |sent|) {
          UpdateTransferred(c, remote, true, sent[i], now, v');
          v' := v'.And(Transfers(c, true, sent[i]));
          i := i + 1;
          assert sent[..i][..i - 1] == sent[..i - 1];
        } else {
          UpdateTransferred(c, remote, false, received[j], now, v');
          v' := v'.And(Transfers(c, false, received[j]));
          j := j + 1;
          assert received[..j][..j - 1] == received[..j - 1];
        }
        now := me.(sent := me.sent + Endpoints.Total(sent[..i]), received := me.received + Endpoints.Total(received[..j]));
      }
      assert sent[..i] == sent && received[..j] == received;
    }

    /** Relays between the client and the remote it has connected to, and reports to
        the state every byte that is written. */
    method CopyBetween(c: nat, remote: SocketSpec, client: Connection, server: Connection,
                       finish1: StopSignal, finish2: StopSignal, size: nat, polls: nat, ghost me: Client, ghost v: Visit)
      returns (res: IoPoll<(nat, nat)>, ghost v': Visit)
      requires Valid() && Follows(c, v) && Has(c, me) && me.pc.Streaming? && me.pc.remote == remote
      requires Apart(client, server, finish1, finish2)
      modifies this, state, client.read, client.write, server.read, server.write, finish1, finish2
      ensures Valid() && Follows(c, v') && v' == v.(mine := v'.mine)
      ensures Has(c, me.(sent := me.sent + |server.write.outgoing|, received := me.received + |client.write.outgoing|))
      ensures Carried(client, server, finish1, finish2, size, polls, old(PolledOf(client, server, finish1, finish2)), res)
    {
      hide Agrees, Traced, Has, Follows;
      var up := new Progress();
      var down := new Progress();
      ghost var copy;
      res, copy := CopyStreams(client, server, up, down, finish1, finish2, size, polls);
      v' := ReportAll(c, remote, up.reports, down.reports, me, v);
    }

    /** One round of the retry loop: select a remote, try to connect to it, and relay
        or report the error; `connects` is what the attempt to connect comes to. */
    method Attempt(c: nat, connects: bool, client: Connection, server: Connection,
                   finish1: StopSignal, finish2: StopSignal, size: nat, polls: nat, ghost me: Client, ghost v: Visit)
      returns (outcome: Attempted, ghost me': Client, ghost v': Visit)
      requires Valid() && Follows(c, v) && Has(c, me) && Apart(client, server, finish1, finish2)
      requires me.pc.Choosing? && me.pc.left > 0 && me.connected.None? && me.sent == me.received == 0
      modifies this, state, client.read, client.write, server.read, server.write, finish1, finish2
      ensures Valid() && Follows(c, v') && v' == v.(mine := v'.mine) && Has(c, me')
      ensures !outcome.Relayed? ==>
                && Apart(client, server, finish1, finish2) && me'.connected.None? && me'.sent == me'.received == 0
                && server.write.outgoing == client.write.outgoing == []
                && me'.pc == if outcome.NotSelected? then Leaving else Choosing(me.pc.left - 1)
      ensures !outcome.NotSelected? ==> (outcome.Relayed? <==> connects)
      ensures !outcome.Relayed? ==>
                && PolledOf(client, server, finish1, finish2) == old(PolledOf(client, server, finish1, finish2))
                && me'.refusals == me.refusals + if outcome.NotConnected? then 1 else 0
      ensures outcome.Relayed? ==>
                && me'.refusals == me.refusals
                && me'.pc.Streaming? && me'.pc.remote == outcome.remote && me'.connected == Some(outcome.remote)
                && me'.sent == |server.write.outgoing| && me'.received == |client.write.outgoing|
                && Carried(client, server, finish1, finish2, size, polls, old(PolledOf(client, server, finish1, finish2)), outcome.res)
    {
      hide Agrees, Traced, Has, Carried, Follows, Now;
      var selected, id, e := SelectRemote(c, me, v);
      v' := v.And(e);
      if selected.Err? {
        me' := me.(pc := Leaving);
        return NotSelected, me', v';
      }
      var (remote, options) := selected.value;
      me' := me.(pc := Connecting(me.pc.left, remote, id, options.errorsTillDead), selections := me.selections + 1);
      if connects {
        RemoteConnected(c, remote, me', v');
        me', v' := me'.(pc := Streaming(remote, id), connected := Some(remote)), v'.And(Connects(c));
        var res;
        res, v' := CopyBetween(c, remote, client, server, finish1, finish2, size, polls, me', v');
        me' := me'.(sent := |server.write.outgoing|, received := |client.write.outgoing|);
        return Relayed(remote, res), me', v';
      }
      RemoteError(c, remote, options, me', v');
      me', v' := me'.(pc := Choosing(me.pc.left - 1), refusals := me.refusals + 1), v'.And(Refused(c));
      outcome := NotConnected;
    }

    /** The retry loop: attempts, until one is relayed or none is left to make.
        `answers` says of each attempt to connect, in turn, what it comes to. */
    method Attempts(c: nat, left: nat, answers: seq<bool>, client: Connection, server: Connection,
                    finish1: StopSignal, finish2: StopSignal, size: nat, polls: nat, ghost me: Client, ghost v: Visit)
      returns (lastRemote: Option<SocketSpec>, copied: Option<IoPoll<(nat, nat)>>, ghost me': Client, ghost v': Visit)
      requires Valid() && Follows(c, v) && Has(c, me) && Apart(client, server, finish1, finish2)
      requires me.pc == Choosing(left) && me.connected.None? && me.sent == me.received == me.refusals == 0
      modifies this, state, client.read, client.write, server.read, server.write, finish1, finish2
      ensures Valid() && Follows(c, v') && v' == v.(mine := v'.mine) && Has(c, me')
      ensures AsAnswered(me', answers)
      ensures copied.Some? <==> me'.pc.Streaming?
      ensures lastRemote == me'.connected == if me'.pc.Streaming? then Some(me'.pc.remote) else None
      ensures me'.pc == Choosing(0) || me'.pc.Leaving? || me'.pc.Streaming?
      ensures me'.sent == |server.write.outgoing| && me'.received == |client.write.outgoing|
      ensures copied.Some? ==> Carried(client, server, finish1, finish2, size, polls, old(PolledOf(client, server, finish1, finish2)), copied.value)
    {
      hide Agrees, Traced, Has, Carried, Follows, Now;
      me', v', lastRemote, copied := me, v, None, None;
      var retries := left;
      while retries > 0
        invariant Valid() && Follows(c, v') && v' == v.(mine := v'.mine) && Has(c, me')
        invariant Apart(client, server, finish1, finish2)
        invariant copied.None? && lastRemote.None? && me'.pc == Choosing(retries) && me'.refusals == left - retries
        invariant me'.sent == me'.received == 0 && me'.connected.None? && AsAnswered(me', answers)
        invariant PolledOf(client, server, finish1, finish2) == old(PolledOf(client, server, finish1, finish2))
      {
        var outcome;
        outcome, me', v' := Attempt(c, Answer(answers, left - retries), client, server, finish1, finish2, size, polls, me', v');
        match outcome {
          case NotSelected =>
            lastRemote := None;
            break;
          case Relayed(remote, res) =>
            lastRemote, copied := Some(remote), Some(res);
            break;
          case NotConnected =>
            retries := retries - 1;
        }
      }
    }

    /** Serves client `c`, which has just arrived: `server` is the connection that a
        successful attempt yields, `answers` are the outcomes of the attempts, and the
        relay is polled `polls` times, unless it is ready before.  `copied` is what the relay came to; without it no attempt succeeded.  `mine`
        are the events it performs: the run goes on with these, one after each of the
        next blocks of the schedule, and with nothing else. */
    method ProcessSocket(c: nat, answers: seq<bool>, client: Connection, server: Connection,
                         finish1: StopSignal, finish2: StopSignal, size: nat, polls: nat)
      returns (copied: Option<IoPoll<(nat, nat)>>, ghost me: Client, ghost mine: seq<Event>)
      requires Valid() && Has(c, NEW_CLIENT) && Apart(client, server, finish1, finish2)
      modifies this, state, client.read, client.write, server.read, server.write, finish1, finish2
      ensures Valid() && Has(c, me) && Orderly(me)
      ensures AllOwn(mine, c) && turn == old(turn) + |mine|
      ensures Now() == Woven(old(Now()), schedule, old(turn), c, mine)
      ensures if copied == Some(Pending) then me.pc.Streaming? else me.pc.Gone?
      ensures copied.Some? <==> me.connected.Some?
      ensures me.sent == |server.write.outgoing| && me.received == |client.write.outgoing|
      ensures AsAnswered(me, answers)
      ensures copied.Some? ==> Carried(client, server, finish1, finish2, size, polls, old(PolledOf(client, server, finish1, finish2)), copied.value)
    {
      hide Agrees, Traced, Orderly, Has, Carried, Follows, Now, Woven, AllOwn;
      ghost var v := Visit(Now(), turn, []);
      VisitBegins(c);
      copied, me := None, NEW_CLIENT;
      ClientConnected(c, me, v);
      me, v := me.(pc := Counted), v.And(CountIn(c));
      var r := RemoteRetries(c, me, v);
      v := v.And(ReadRetries(c));
      if r.Err? {
        me := me.(pc := Gone);
      } else {
        me := me.(pc := Choosing(r.value), retries := r.value);
        var lastRemote;
        lastRemote, copied, me, v := Attempts(c, r.value, answers, client, server, finish1, finish2, size, polls, me, v);
        if copied != Some(Pending) {
          ClientDisconnected(c, lastRemote, me, v);
          me, v := me.(pc := Gone, reported := lastRemote), v.And(Leaves(c));
        }
      }
      mine := v.mine;
      EndsOrderly(c, me);
      FollowsWoven(c, v);
    }

    lemma EndsOrderly(c: nat, me: Client)
      requires Valid() && Has(c, me)
      ensures Orderly(me)
    {
      TracedInvariant();
    }

    lemma VisitBegins(c: nat)
      ensures Follows(c, Visit(Now(), turn, []))
    {
      WovenNone(Now(), schedule, turn, c);
    }

    lemma FollowsWoven(c: nat, v: Visit)
      requires Follows(c, v)
      ensures Now() == Woven(v.begin, schedule, v.turn, c, v.mine)
      ensures turn == v.turn + |v.mine| && AllOwn(v.mine, c)
    {
    }

    // ------------------------------------------------ probes and commands

    /** A probe of this tunnel ends. */
    method FinishProbe(p: nat, connected: bool)
      requires Valid() && p < |state.probes| && state.probes[p].tunnel == local && state.probes[p].status == Unfinished
      modifies this, state
      ensures Valid() && Now() == Moment(Step(old(world), ProbeEnds(p, connected)), old(trace) + [ProbeEnds(p, connected)])
    {
      hide Invariant, CanRun, Run;
      state.FinishProbe(p, connected);
      Note(ProbeEnds(p, connected));
    }

    method AddRemote(remote: SocketSpec) returns (r: Result<(), StateError>)
      requires Valid()
      modifies this, state
      ensures Valid() && Now() == Moment(Step(old(world), Add(remote)), old(trace) + [Add(remote)])
      ensures r.Ok? <==> old(world).tun.Some? && remote !in old(world).books
    {
      TracedInvariant();
      assert Shape(world);
      if world.tun.Some? {
        AddRemoteView(world.tun.value, remote);
      }
      hide Invariant, CanRun, Run, Live, Dead, Tidy, ClientsOk, OldBooks, TunnelInfos.AddRemote;
      r := state.AddRemoteToTunnel(local, remote);
      Note(Add(remote));
    }

    method RemoveRemote(remote: SocketSpec) returns (r: Result<RemoteInfo, StateError>)
      requires Valid()
      modifies this, state
      ensures Valid() && Now() == Moment(Step(old(world), Remove(remote)), old(trace) + [Remove(remote)])
      ensures r.Ok? <==> old(world).tun.Some? && remote in old(world).books
    {
      TracedInvariant();
      assert Shape(world);
      if world.tun.Some? {
        RemoveRemoteView(world.tun.value, remote);
      }
      hide Invariant, CanRun, Run, Live, Dead, Tidy, ClientsOk, OldBooks, TunnelInfos.RemoveRemote, ToMap;
      r := state.RemoveRemoteFromTunnel(local, remote);
      Note(Remove(remote));
    }

    /** Closes the tunnel: no probe of a remote that was dead then goes on. */
    method StopTunnel() returns (r: Result<TunnelInfo, StateError>)
      requires Valid()
      modifies this, state
      ensures Valid() && Now() == Moment(Step(old(world), Close), old(trace) + [Close]) && local !in state.tunnels
      ensures r.Ok? <==> local in old(state.tunnels)
      ensures r.Ok? ==>
                && r.value == old(state.tunnels)[local]
                && forall key | key in Dead(r.value) ::
                     Names(Dead(r.value)[key].joinHandle, state.probes, Probe(local, key, Aborted))
    {
      TracedInvariant();
      ghost var w := world;
      hide CanRun, Run, Shape, AllGood, NoOrphans, AllOrderly, AllGivenRetries, TotalsExact, Dominated, AbortAll, ToMap;
      r := state.RemoveTunnel(local);
      Note(Close);
      if r.Ok? {
        forall key | key in Dead(r.value)
          ensures Names(Dead(r.value)[key].joinHandle, state.probes, Probe(local, key, Aborted))
        {
          CloseAborts(w, key);
        }
      }
    }
  }

  /** Opens a tunnel: a run begins, unless there is a tunnel of that name. */
  method StartTunnel(state: State, local: SocketSpec, remotes: seq<SocketSpec>, options: TunnelOptions, schedule: seq<seq<Event>>)
    returns (r: Result<Runtime, StateError>)
    modifies state
    ensures r == Err(TunnelExists) || r.Ok?
    ensures r.Err? <==> local in old(state.tunnels)
    ensures r.Err? ==> state.tunnels == old(state.tunnels) && state.probes == old(state.probes)
    ensures r.Ok? ==>
              && fresh(r.value) && r.value.Valid() && r.value.state == state && r.value.local == local
              && r.value.schedule == schedule
              && Initial(r.value.begun) && r.value.trace == [] && Reachable(r.value.world)
              && r.value.world.tun == Some(NewTunnel(remotes, options))
  {
    var added := state.AddTunnel(local, remotes, options);
    if added.Err? {
      return Err(added.error);
    }
    var w := World(local, Some(state.tunnels[local]), state.probes, [], map key | key in remotes :: NewBook(0), 1, 0);
    NewTunnelView(remotes, options);
    assert Initial(w);
    InitialInvariant(w);
    assert CanRun(w, []) && Run(w, []) == w;
    hide Invariant, Initial;
    var runtime := new Runtime(state, w, schedule);
    r := Ok(runtime);
  }

  ghost predicate Apart(client: Connection, server: Connection, finish1: StopSignal, finish2: StopSignal)
    reads client.read, client.write, server.read, server.write, finish1, finish2
  {
    && client.read != server.read && client.write != server.write && finish1 != finish2
    && client.read.Fresh() && client.write.Fresh() && server.read.Fresh() && server.write.Fresh()
    && !finish1.completed && !finish2.completed
  }

  /** What the attempt number `i` to connect comes to. */
  function Answer(answers: seq<bool>, i: nat): (connects: bool)
    ensures i < |answers| ==> connects == answers[i]
  {
    i < |answers| && answers[i]
  }

  /** The client was refused until the first answer that let it connect, if it came so far. */
  ghost predicate AsAnswered(me: Client, answers: seq<bool>) {
    && (forall i | 0 <= i < me.refusals :: !Answer(answers, i))
    && (me.connected.Some? ==> Answer(answers, me.refusals))
  }

  /** How often the two directions of a relay have been polled. */
  datatype Polled = Polled(up: Polls, down: Polls)

  ghost function PolledOf(client: Connection, server: Connection, finish1: StopSignal, finish2: StopSignal): (polled: Polled)
    reads client.read, client.write, server.read, server.write, finish1, finish2
  {
    Polled(PollsOf(client.read, server.write, finish1), PollsOf(server.read, client.write, finish2))
  }

  /** What a relay has done that came to `res`: either side has got a prefix of what
      the other sent, at most a buffer of it after the close signal; when the relay has
      finished, the lengths are its result, and what was not cut off by the close
      signal has been delivered; and if it is still pending, it was polled `polls`
      times, after those counted in `before`, and refused each time. */
  ghost predicate Carried(client: Connection, server: Connection, finish1: StopSignal, finish2: StopSignal,
                          size: nat, polls: nat, before: Polled, res: IoPoll<(nat, nat)>)
    reads client.read, client.write, server.read, server.write, finish1, finish2
  {
    && server.write.outgoing <= client.read.incoming && client.write.outgoing <= server.read.incoming
    && StopsSoon(server.write, finish1, size) && StopsSoon(client.write, finish2, size)
    && (res.Pending? ==> Waited(client, server, finish1, finish2, polls, before.up, before.down))
    && (Endpoints.Finished(res) ==>
          && res.value.value == (|server.write.outgoing|, |client.write.outgoing|)
          && (size > 0 && !finish1.completed ==> Delivered(client.read, server.write))
          && (size > 0 && !finish2.completed ==> Delivered(server.read, client.write)))
  }

  lemma LocalKept(w: World, e: Event)
    requires Enabled(w, e)
    ensures Step(w, e).local == w.local
  {
  }

  lemma MeanwhileNothing(m: Moment, c: nat)
    ensures Meanwhile(m, [], c) == m
  {
  }
}
