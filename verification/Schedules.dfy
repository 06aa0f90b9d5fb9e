/** What a client's process goes through: the events of all others come in blocks, as
    a schedule has it, and its own events come one after each block. */
module Schedules {
  import opened Machine

  /** A state and the events that led to it. */
  datatype Moment = Moment(world: World, trace: seq<Event>)

  predicate IsOwn(e: Event, c: nat) {
    IsClientEvent(e) && e.c == c
  }

  /** The events of `block` happen, except those that are not possible when their turn
      comes or are of client `c`. */
  function Meanwhile(m: Moment, block: seq<Event>, c: nat): (r: Moment)
    ensures m.trace <= r.trace
    ensures forall i | |m.trace| <= i < |r.trace| :: !IsOwn(r.trace[i], c)
  {
    if block == [] then m
    else
      var p, e := Meanwhile(m, block[..|block| - 1], c), block[|block| - 1];
      if Enabled(p.world, e) && !IsOwn(e, c) then Moment(Step(p.world, e), p.trace + [e]) else p
  }

  lemma MeanwhileMore(m: Moment, block: seq<Event>, i: nat, c: nat)
    requires i < |block|
    ensures var p, e := Meanwhile(m, block[..i], c), block[i];
            Meanwhile(m, block[..i + 1], c)
            == if Enabled(p.world, e) && !IsOwn(e, c) then Moment(Step(p.world, e), p.trace + [e]) else p
  {
    hide Enabled, Step;
    assert block[..i + 1][..i] == block[..i];
  }

  /** Whatever the others can do, some block makes them do. */
  lemma {:induction false} AnyRunMeanwhile(m: Moment, es: seq<Event>, c: nat)
    requires CanRun(m.world, es) && forall e | e in es :: !IsOwn(e, c)
    ensures Meanwhile(m, es, c) == Moment(Run(m.world, es), m.trace + es)
  {
    if es == [] {
      assert m.trace + es == m.trace;
    } else {
      var init, last := es[..|es| - 1], es[|es| - 1];
      assert es == init + [last];
      RunSplit(m.world, init, last);
      AnyRunMeanwhile(m, init, c);
      assert m.trace + es == m.trace + init + [last];
    }
  }

  lemma {:induction false} RunSplit(w: World, es: seq<Event>, e: Event)
    requires CanRun(w, es + [e])
    ensures CanRun(w, es) && Enabled(Run(w, es), e) && Run(w, es + [e]) == Step(Run(w, es), e)
    decreases |es|
  {
    hide Step, Enabled;
    if es == [] {
      assert ([] + [e])[0] == e && ([] + [e])[1..] == [];
    } else {
      assert (es + [e])[0] == es[0] && (es + [e])[1..] == es[1..] + [e];
      RunSplit(Step(w, es[0]), es[1..], e);
    }
  }

  /** Once the schedule has ended, the others are idle. */
  function Block(schedule: seq<seq<Event>>, turn: nat): (block: seq<Event>)
    ensures turn < |schedule| ==> block == schedule[turn]
  {
    if turn < |schedule| then schedule[turn] else []
  }

  /** The blocks of the schedule from `turn` on, one before each of the events `mine`. */
  function Woven(m: Moment, schedule: seq<seq<Event>>, turn: nat, c: nat, mine: seq<Event>): (r: Moment)
    ensures m.trace <= r.trace
  {
    if mine == [] then m
    else
      var last := |mine| - 1;
      var p := Meanwhile(Woven(m, schedule, turn, c, mine[..last]), Block(schedule, turn + last), c);
      Moment(if Enabled(p.world, mine[last]) then Step(p.world, mine[last]) else p.world, p.trace + [mine[last]])
  }

  lemma WovenMore(m: Moment, schedule: seq<seq<Event>>, turn: nat, c: nat, mine: seq<Event>, e: Event)
    ensures var p := Meanwhile(Woven(m, schedule, turn, c, mine), Block(schedule, turn + |mine|), c);
            Woven(m, schedule, turn, c, mine + [e])
            == Moment(if Enabled(p.world, e) then Step(p.world, e) else p.world, p.trace + [e])
  {
    hide Meanwhile, Enabled, Step, Block;
    assert (mine + [e])[..|mine|] == mine;
  }

  predicate AllOwn(mine: seq<Event>, c: nat) {
    forall i | 0 <= i < |mine| :: IsOwn(mine[i], c)
  }

  function OwnEvents(trace: seq<Event>, c: nat): (own: seq<Event>) {
    if trace == [] then []
    else OwnEvents(trace[..|trace| - 1], c) + if IsOwn(trace[|trace| - 1], c) then [trace[|trace| - 1]] else []
  }

  lemma OwnMore(trace: seq<Event>, e: Event, c: nat)
    ensures OwnEvents(trace + [e], c) == OwnEvents(trace, c) + if IsOwn(e, c) then [e] else []
  {
    assert (trace + [e])[..|trace|] == trace;
  }

  lemma {:induction false} MeanwhileOwnsNothing(m: Moment, block: seq<Event>, c: nat)
    ensures OwnEvents(Meanwhile(m, block, c).trace, c) == OwnEvents(m.trace, c)
  {
    if block != [] {
      var p, e := Meanwhile(m, block[..|block| - 1], c), block[|block| - 1];
      MeanwhileOwnsNothing(m, block[..|block| - 1], c);
      OwnMore(p.trace, e, c);
      hide Enabled, Step, OwnEvents;
    }
  }

  /** The events of the client in such a trace are exactly `mine`, in this order. */
  lemma {:induction false} OwnEventsAreMine(m: Moment, schedule: seq<seq<Event>>, turn: nat, c: nat, mine: seq<Event>)
    requires AllOwn(mine, c)
    ensures OwnEvents(Woven(m, schedule, turn, c, mine).trace, c) == OwnEvents(m.trace, c) + mine
  {
    hide Woven, Meanwhile, OwnEvents, Enabled, Step, Block;
    if mine == [] {
      WovenNone(m, schedule, turn, c);
    } else {
      var init, e := mine[..|mine| - 1], mine[|mine| - 1];
      var before := Woven(m, schedule, turn, c, init);
      var p := Meanwhile(before, Block(schedule, turn + |init|), c);
      assert mine == init + [e];
      OwnEventsAreMine(m, schedule, turn, c, init);
      WovenMore(m, schedule, turn, c, init, e);
      MeanwhileOwnsNothing(before, Block(schedule, turn + |init|), c);
      OwnMore(p.trace, e, c);
      assert OwnEvents(m.trace, c) + init + [e] == OwnEvents(m.trace, c) + mine;
    }
  }

  lemma WovenNone(m: Moment, schedule: seq<seq<Event>>, turn: nat, c: nat)
    ensures Woven(m, schedule, turn, c, []) == m
  {
  }
}
