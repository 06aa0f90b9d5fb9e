/** How the selections of many clients spread over the live remotes. */
module Balancing {
  import opened Wrappers
  import opened SocketSpecs
  import opened IndexMaps
  import opened TunnelInfos
  import opened States
  import opened Machine

  // ------------------------------------------------ minimum open connections

  /** No two loads are further than one apart. */
  ghost predicate Even(remotes: IndexMap<RemoteInfo>) {
    forall i, j | 0 <= i < |remotes| && 0 <= j < |remotes| :: Load(remotes[i].value) <= Load(remotes[j].value) + 1
  }

  lemma LoadAfterSelect(r: RemoteInfo)
    ensures Load(r.NewPendingStream()) == if Load(r) == USIZE - 1 then 0 else Load(r) + 1
  {
  }

  /** Choosing a least loaded remote keeps the loads even, unless its load is the
      greatest number of the register and there are others. */
  lemma SelectKeepsEvenIff(ti: TunnelInfo, idx: nat)
    requires Even(ti.remotes) && IsLeastLoaded(ti.remotes, idx)
    ensures Even(Select(ti, idx).remotes) <==> |ti.remotes| == 1 || Load(ti.remotes[idx].value) < USIZE - 1
  {
    LoadAfterSelect(ti.remotes[idx].value);
    var after := Select(ti, idx).remotes;
    hide Load;
    if |ti.remotes| > 1 && Load(ti.remotes[idx].value) == USIZE - 1 {
      var other := if idx == 0 then 1 else 0;
      assert Load(after[other].value) == USIZE - 1 && Load(after[idx].value) == 0;
    }
  }

  /** Neither an error nor a departure, and no command. */
  predicate KeepsStreams(e: Event) {
    !e.Refused? && !e.Leaves? && !e.ProbeEnds? && !e.Add? && !e.Remove? && !e.Close?
  }

  /** Everything but a selection keeps the loads: a connect moves a unit from the
      pending to the open streams. */
  lemma LoadsKept(w: World, e: Event)
    requires Enabled(w, e) && KeepsStreams(e) && !e.SelectOk? && w.tun.Some?
    ensures var tun := Step(w, e).tun;
            && tun.Some? && tun.value.options == w.tun.value.options && |tun.value.remotes| == |w.tun.value.remotes|
            && forall i | 0 <= i < |w.tun.value.remotes| ::
                 Streams(tun.value.remotes[i].value) == Streams(w.tun.value.remotes[i].value)
  {
    hide BooksAfter, ProbesAfter, ClientAfter, Insert;
  }

  /** The open and pending streams of two remotes are never further than one apart. */
  ghost predicate EvenStreams(remotes: IndexMap<RemoteInfo>) {
    forall i, j | 0 <= i < |remotes| && 0 <= j < |remotes| :: Streams(remotes[i].value) <= Streams(remotes[j].value) + 1
  }

  ghost predicate SpreadsLoad(w: World) {
    && w.tun.Some? && w.tun.value.options.strategy.MinimumOpenConnections?
    && Fits(w.tun.value.remotes) && EvenStreams(w.tun.value.remotes)
  }

  lemma SelectEvenly(ti: TunnelInfo, idx: nat, i: nat)
    requires Fits(ti.remotes) && EvenStreams(ti.remotes) && IsLeastLoaded(ti.remotes, idx)
    requires i < |ti.remotes| && Streams(ti.remotes[i].value) + 1 < USIZE
    ensures var after := Select(ti, idx).remotes;
            Fits(after) && EvenStreams(after) && Streams(after[i].value) <= Streams(ti.remotes[i].value) + 1
  {
    var after := Select(ti, idx).remotes;
    assert forall j | 0 <= j < |after| ::
             Streams(after[j].value) == Streams(ti.remotes[j].value) + if j == idx then 1 else 0;
    assert forall j | 0 <= j < |ti.remotes| :: Load(ti.remotes[j].value) == Streams(ti.remotes[j].value);
    hide Load, Streams;
  }

  lemma SelectStaysEven(w: World, e: Event, i: nat, room: nat)
    requires Enabled(w, e) && e.SelectOk? && SpreadsLoad(w)
    requires i < |w.tun.value.remotes| && Streams(w.tun.value.remotes[i].value) + room + 1 < USIZE
    ensures SpreadsLoad(Step(w, e))
    ensures i < |Step(w, e).tun.value.remotes| && Streams(Step(w, e).tun.value.remotes[i].value) + room < USIZE
  {
    var ti := w.tun.value;
    assert IsLeastLoaded(ti.remotes, e.idx);
    SelectEvenly(ti, e.idx, i);
    assert Step(w, e).tun == Some(Select(ti, e.idx));
    hide Load, Streams, Fits, EvenStreams, Enabled, Step, IsLeastLoaded;
  }

  /** Open and pending streams within one of each other stay so through any number of
      selections and connects for which some remote has room in its register. */
  lemma {:induction false} RunStaysEven(w: World, es: seq<Event>, i: nat)
    requires CanRun(w, es) && (forall e | e in es :: KeepsStreams(e)) && SpreadsLoad(w)
    requires i < |w.tun.value.remotes| && Streams(w.tun.value.remotes[i].value) + |es| < USIZE
    ensures SpreadsLoad(Run(w, es))
    decreases |es|
  {
    if es != [] {
      if es[0].SelectOk? {
        SelectStaysEven(w, es[0], i, |es| - 1);
      } else {
        LoadsKept(w, es[0]);
      }
      hide Step, Enabled, Streams;
      RunStaysEven(Step(w, es[0]), es[1..], i);
    }
  }

  // --------------------------------------------------------------- round robin

  /** The indices of the remotes that were selected. */
  function Choices(es: seq<Event>): (r: seq<nat>)
    decreases |es|
  {
    if es == [] then [] else (if es[0].SelectOk? then [es[0].idx] else []) + Choices(es[1..])
  }

  /** The list of live remotes is the same in all states of the run. */
  ghost predicate SteadyRun(w: World, es: seq<Event>, keys: seq<SocketSpec>)
    requires CanRun(w, es)
    decreases |es|
  {
    && w.tun.Some? && KeyList(w.tun.value.remotes) == keys
    && (es == [] || SteadyRun(Step(w, es[0]), es[1..], keys))
  }

  function Next(w: World, n: nat): (idx: nat)
    requires w.tun.Some? && n > 0
    ensures idx < n
  {
    RoundRobinSelect(n, w.tun.value.lastSelectedIndex)
  }

  /** The index `j` places after `first` in a cycle of `n`. */
  function Cyclic(first: nat, j: nat, n: nat): (idx: nat)
    requires n > 0
    ensures idx < n
  {
    (first + j) % n
  }

  /** Only a selection moves the index that comes next. */
  lemma StepNext(w: World, e: Event, n: nat)
    requires Enabled(w, e) && w.tun.Some? && Step(w, e).tun.Some? && |w.tun.value.remotes| == n > 0
    requires w.tun.value.options.strategy.RoundRobin?
    ensures Step(w, e).tun.value.options.strategy.RoundRobin?
    ensures if e.SelectOk? then e.idx == Next(w, n) && Next(Step(w, e), n) == Cyclic(e.idx, 1, n)
            else Next(Step(w, e), n) == Next(w, n)
  {
    hide BooksAfter, ProbesAfter, ClientAfter, Insert, SwapRemove, Find, AbortAll, IsLeastLoaded;
  }

  lemma ChoicesFirst(es: seq<Event>)
    requires es != []
    ensures Choices(es) == if es[0].SelectOk? then [es[0].idx] + Choices(es[1..]) else Choices(es[1..])
  {
    assert [] + Choices(es[1..]) == Choices(es[1..]);
  }

  /** Each choice is the one after the choice before, and `first` is the first. */
  ghost predicate IsCycle(choices: seq<nat>, first: nat, n: nat)
    requires n > 0
    decreases |choices|
  {
    choices == [] || (choices[0] == first && IsCycle(choices[1..], Cyclic(first, 1, n), n))
  }

  lemma CycleCons(first: nat, choices: seq<nat>, n: nat)
    requires n > 0 && IsCycle(choices, Cyclic(first, 1, n), n)
    ensures IsCycle([first] + choices, first, n)
  {
    assert ([first] + choices)[1..] == choices;
  }

  lemma {:induction false} CycleFromNext(w: World, es: seq<Event>, keys: seq<SocketSpec>)
    requires CanRun(w, es) && SteadyRun(w, es, keys) && keys != []
    requires w.tun.value.options.strategy.RoundRobin?
    ensures IsCycle(Choices(es), Next(w, |keys|), |keys|)
    decreases |es|
  {
    if es != [] {
      ChoicesFirst(es);
      StepNext(w, es[0], |keys|);
      hide Step, Enabled, Next, KeyList, Cyclic, Choices, IsCycle;
      CycleFromNext(Step(w, es[0]), es[1..], keys);
      if es[0].SelectOk? {
        CycleCons(es[0].idx, Choices(es[1..]), |keys|);
      }
    }
  }

  /** The remotes are selected one after the other, cyclically, from the one after
      the last index, however old that is. */
  lemma ChoicesCycle(w: World, es: seq<Event>, keys: seq<SocketSpec>) returns (first: nat)
    requires CanRun(w, es) && SteadyRun(w, es, keys) && keys != []
    requires w.tun.value.options.strategy.RoundRobin?
    ensures IsNext(|keys|, w.tun.value.lastSelectedIndex, first) && IsCycle(Choices(es), first, |keys|)
  {
    first := Next(w, |keys|);
    CycleFromNext(w, es, keys);
  }

  lemma {:induction false} CycleAt(choices: seq<nat>, first: nat, n: nat, j: nat)
    requires n > 0 && first < n && IsCycle(choices, first, n) && j < |choices|
    ensures choices[j] == Cyclic(first, j, n)
    decreases j
  {
    hide Cyclic;
    if j == 0 {
      CyclicFirst(first, n);
    } else {
      CycleAt(choices[1..], Cyclic(first, 1, n), n, j - 1);
      CyclicNext(first, j - 1, n);
    }
  }

  // ---------------------------------------------------- counting in a cycle

  lemma MultipleIsFar(d: int, n: int)
    requires n > 0
    ensures d == 0 || d * n >= n || d * n <= -n
  {
    if d > 0 {
      var e := d - 1;
      assert e * n >= 0 && d * n == e * n + n;
    } else {
      var e := -d;
      assert d * n == -(e * n);
      if e > 0 {
        assert (e - 1) * n >= 0 && e * n == (e - 1) * n + n;
      }
    }
  }

  lemma ModUnique(x: int, q: int, m: int, n: nat)
    requires n > 0 && x == q * n + m && 0 <= m < n
    ensures x / n == q && x % n == m
  {
    var d := x / n - q;
    assert d * n == (x / n) * n - q * n;
    MultipleIsFar(d, n);
  }

  lemma ModAdd(q: int, x: int, n: nat)
    requires n > 0
    ensures (q * n + x) % n == x % n
  {
    var d, m := x / n, x % n;
    assert q * n + d * n == (q + d) * n;
    ModUnique(q * n + x, q + d, m, n);
  }

  lemma CyclicFirst(first: nat, n: nat)
    requires first < n
    ensures Cyclic(first, 0, n) == first
  {
    ModUnique(first, 0, first, n);
  }

  lemma CyclicNext(first: nat, j: nat, n: nat)
    requires n > 0
    ensures Cyclic(Cyclic(first, 1, n), j, n) == Cyclic(first, j + 1, n)
  {
    ModAdd((first + 1) / n, (first + 1) % n + j, n);
    assert ((first + 1) / n) * n + (first + 1) % n == first + 1;
  }

  lemma DivStep(x: nat, n: nat)
    requires n > 0
    ensures (x + 1) / n == x / n + if (x + 1) % n == 0 then 1 else 0
  {
    var q, m := x / n, x % n;
    if m + 1 < n {
      ModUnique(x + 1, q, m + 1, n);
    } else {
      assert (q + 1) * n == q * n + n;
      ModUnique(x + 1, q + 1, 0, n);
    }
  }

  lemma {:induction false} DivMonotone(x: nat, y: nat, n: nat)
    requires n > 0 && x <= y
    ensures x / n <= y / n
    decreases y
  {
    if x < y {
      DivMonotone(x, y - 1, n);
      DivStep(y - 1, n);
    }
  }

  /** How far behind the first choice the remote `idx` is in the cycle. */
  function Offset(first: nat, idx: nat, n: nat): (off: nat)
    requires idx < n
    ensures off < n
  {
    (idx - first) % n
  }

  lemma HitsIff(first: nat, idx: nat, n: nat, j: nat)
    requires idx < n
    ensures Cyclic(first, j, n) == idx <==> (j + n - Offset(first, idx, n)) % n == 0
  {
    var off, d := Offset(first, idx, n), (idx - first) / n;
    assert idx - first == d * n + off;
    var x := j + n - off;
    var q, m := x / n, x % n;
    assert first + j == (q - 1 - d) * n + (idx + m) by {
      assert (q - 1 - d) * n == q * n - n - d * n;
    }
    ModAdd(q - 1 - d, idx + m, n);
    if idx + m < n {
      ModUnique(idx + m, 0, idx + m, n);
    } else {
      ModUnique(idx + m, 1, idx + m - n, n);
    }
  }

  function Count(choices: seq<nat>, idx: nat): (n: nat) {
    if choices == [] then 0
    else Count(choices[..|choices| - 1], idx) + if choices[|choices| - 1] == idx then 1 else 0
  }

  /** How often an index occurs in a cycle depends only on its offset. */
  lemma {:induction false} CountInCycle(choices: seq<nat>, first: nat, n: nat, idx: nat)
    requires idx < n && forall j | 0 <= j < |choices| :: choices[j] == Cyclic(first, j, n)
    ensures Count(choices, idx) == (|choices| + n - 1 - Offset(first, idx, n)) / n
  {
    var k, off := |choices|, Offset(first, idx, n);
    hide Offset, Cyclic;
    if k == 0 {
      ModUnique(n - 1 - off, 0, n - 1 - off, n);
    } else {
      CountInCycle(choices[..k - 1], first, n, idx);
      HitsIff(first, idx, n, k - 1);
      DivStep(k - 1 + n - 1 - off, n);
    }
  }

  /** A share of `k` among `n`, rounded down or up. */
  predicate IsShare(count: nat, k: nat, n: nat)
    requires n > 0
  {
    k / n <= count <= (k + n - 1) / n
  }

  lemma CountIsFair(choices: seq<nat>, first: nat, n: nat, idx: nat)
    requires idx < n && forall j | 0 <= j < |choices| :: choices[j] == Cyclic(first, j, n)
    ensures IsShare(Count(choices, idx), |choices|, n)
  {
    var k, off := |choices|, Offset(first, idx, n);
    CountInCycle(choices, first, n, idx);
    hide Offset, Cyclic, Count;
    DivMonotone(k, k + n - 1 - off, n);
    DivMonotone(k + n - 1 - off, k + n - 1, n);
  }

  /** Fairness: of any k selections in a row each of n remotes gets its share. */
  lemma RoundRobinIsFair(w: World, es: seq<Event>, keys: seq<SocketSpec>, idx: nat)
    requires CanRun(w, es) && SteadyRun(w, es, keys) && idx < |keys|
    requires w.tun.value.options.strategy.RoundRobin?
    ensures IsShare(Count(Choices(es), idx), |Choices(es)|, |keys|)
  {
    var first := ChoicesCycle(w, es, keys);
    hide CanRun, SteadyRun, Cyclic, Count, Choices, IsShare, IsCycle;
    forall j | 0 <= j < |Choices(es)|
      ensures Choices(es)[j] == Cyclic(first, j, |keys|)
    {
      CycleAt(Choices(es), first, |keys|, j);
    }
    CountIsFair(Choices(es), first, |keys|, idx);
  }
}
