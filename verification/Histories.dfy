/** The statistics of a remote against the run itself: what happened to it since it
    was added, read off the events of the run and the states in which they occurred. */
module Histories {
  import opened SocketSpecs
  import opened TunnelInfos
  import opened Views
  import opened Machine
  import opened Shapes
  import opened Records
  import opened Bridges
  import opened Accounts
  import opened Runs

  datatype Happening = Connected | ClientFailed | ProbeFailure | Recovery | Carried(sent: bool, bytes: nat)

  /** What an event of a client is for a live remote that it uses. */
  function Heard(e: Event): (h: seq<Happening>) {
    match e
    case Connects(_) => [Connected]
    case Refused(_) => [ClientFailed]
    case Transfers(_, sending, bytes) => [Carried(sending, bytes)]
    case _ => []
  }

  /** What the end of a probe is for a remote that it finds dead, or not. */
  function Probed(dead: bool, success: bool): (h: seq<Happening>) {
    if !dead then [] else if success then [Recovery] else [ProbeFailure]
  }

  /** What an event is for a remote: nothing, unless it is of a client that uses the
      remote and finds it live, or the end of a probe that finds it dead. */
  function Happens(w: World, e: Event, key: SocketSpec): (h: seq<Happening>)
    requires Enabled(w, e)
  {
    if e.ProbeEnds? then Probed(w.probes[e.p].remote == key && IsDead(w, key), e.success)
    else if IsClientEvent(e) && Uses(w, e, key) && IsLive(w, key) then Heard(e)
    else []
  }

  /** What has happened to a remote after one more event; an addition begins anew. */
  function Then(w: World, e: Event, key: SocketSpec, before: seq<Happening>): (h: seq<Happening>)
    requires Enabled(w, e)
  {
    if e == Add(key) && key !in w.books then [] else before + Happens(w, e, key)
  }

  /** All that happened to a remote in a run since it was last added. */
  ghost function History(w: World, es: seq<Event>, key: SocketSpec, before: seq<Happening>): (h: seq<Happening>)
    requires CanRun(w, es)
    decreases |es|
  {
    if es == [] then before else History(Step(w, es[0]), es[1..], key, Then(w, es[0], key, before))
  }

  function Count(h: seq<Happening>, x: Happening): (n: nat) {
    if h == [] then 0 else Count(h[..|h| - 1], x) + if h[|h| - 1] == x then 1 else 0
  }

  function Bytes(h: seq<Happening>, sent: bool): (n: nat) {
    if h == [] then 0
    else
      var last := h[|h| - 1];
      Bytes(h[..|h| - 1], sent) + if last.Carried? && last.sent == sent then last.bytes else 0
  }

  /** The errors, of clients or probes, since the last connect or recovery. */
  function ErrorsInRow(h: seq<Happening>): (n: nat) {
    if h == [] then 0
    else match h[|h| - 1]
      case Connected => 0
      case Recovery => 0
      case Carried(_, _) => ErrorsInRow(h[..|h| - 1])
      case _ => ErrorsInRow(h[..|h| - 1]) + 1
  }

  /** The statistics tell the history. */
  ghost predicate Tells(info: RemoteInfo, h: seq<Happening>) {
    && info.totalConnections == Count(h, Connected)
    && info.totalErrors == Count(h, ClientFailed) + Count(h, ProbeFailure)
    && info.numErrors == ErrorsInRow(h)
    && info.bytesSent == Bytes(h, true) && info.bytesReceived == Bytes(h, false)
  }

  ghost predicate TellsAll(info: RemoteInfo, book: Book, h: seq<Happening>) {
    Tells(info, h) && book.absorbed == Count(h, ClientFailed) && book.recoveries == Count(h, Recovery)
  }

  // ---------------------------------------------------------- one record

  function Outcome(ch: Change): (h: seq<Happening>) {
    match ch
    case OwnConnected => [Connected]
    case StrayConnected => [Connected]
    case OwnRefused => [ClientFailed]
    case StrayRefused => [ClientFailed]
    case Moved(sent, bytes) => [Carried(sent, bytes)]
    case Revived => [Recovery]
    case ProbeFailed => [ProbeFailure]
    case _ => []
  }

  lemma OneMore(h: seq<Happening>, x: Happening, info: RemoteInfo, book: Book, info': RemoteInfo, book': Book)
    requires TellsAll(info, book, h) && Added(info, book, info', book', x)
    ensures TellsAll(info', book', h + [x])
  {
    assert (h + [x])[..|h|] == h;
  }

  /** A change adds to the statistics what its outcome is. */
  lemma ChangedStatistics(r: Rec, ch: Change, till: nat)
    requires CanChange(r, ch)
    ensures var (r', h) := (Changed(r, ch, till), Outcome(ch));
            && |h| <= 1
            && (h == [] ==> r'.info == r.info.(streamsOpen := r'.info.streamsOpen, streamsPending := r'.info.streamsPending))
            && (h == [] ==> r'.book.absorbed == r.book.absorbed && r'.book.recoveries == r.book.recoveries)
            && (h != [] ==> Added(r.info, r.book, r'.info, r'.book, h[0]))
  {
  }

  /** The statistics after one more happening. */
  ghost predicate Added(info: RemoteInfo, book: Book, info': RemoteInfo, book': Book, x: Happening) {
    && info'.totalConnections == info.totalConnections + (if x.Connected? then 1 else 0)
    && info'.totalErrors == info.totalErrors + (if x.ClientFailed? || x.ProbeFailure? then 1 else 0)
    && info'.numErrors == (if x.Connected? || x.Recovery? then 0 else if x.Carried? then info.numErrors else info.numErrors + 1)
    && info'.bytesSent == info.bytesSent + (if x.Carried? && x.sent then x.bytes else 0)
    && info'.bytesReceived == info.bytesReceived + (if x.Carried? && !x.sent then x.bytes else 0)
    && book'.absorbed == book.absorbed + (if x.ClientFailed? then 1 else 0)
    && book'.recoveries == book.recoveries + (if x.Recovery? then 1 else 0)
  }

  lemma ChangeTells(r: Rec, ch: Change, till: nat, h: seq<Happening>)
    requires CanChange(r, ch) && TellsAll(r.info, r.book, h)
    ensures var r' := Changed(r, ch, till); TellsAll(r'.info, r'.book, h + Outcome(ch))
  {
    var r' := Changed(r, ch, till);
    ChangedStatistics(r, ch, till);
    hide Changed, CanChange, Outcome, Count, Bytes, ErrorsInRow, Added;
    if Outcome(ch) == [] {
      assert h + Outcome(ch) == h;
    } else {
      assert Outcome(ch) == [Outcome(ch)[0]];
      OneMore(h, Outcome(ch)[0], r.info, r.book, r'.info, r'.book);
    }
  }

  lemma HeardOutcome(e: Event, hit: bool, own: bool, live: bool)
    ensures Outcome(ChangeFor(e, hit, own, live)) == if hit && live then Heard(e) else []
  {
  }

  lemma ClientOutcome(w: World, e: Event, key: SocketSpec)
    requires Shape(w) && IsClientEvent(e) && Enabled(w, e) && Present(w, key)
    ensures Happens(w, e, key) == Outcome(ClientChange(w, e, key))
  {
    AllPresent(w, key);
    hide Enabled, Uses, IsLive, IsDead, IdUsed, Shape, Live, Dead, Outcome, ChangeFor, Heard;
    HeardOutcome(e, Uses(w, e, key), w.books[key].id == IdUsed(w, e), IsLive(w, key));
  }

  lemma ProbedOutcome(hit: bool, success: bool, live: bool)
    ensures Outcome(ChangeForProbe(hit, success, live)) == Probed(hit && !live, success)
  {
  }

  lemma ProbeOutcome(w: World, e: Event, key: SocketSpec)
    requires Shape(w) && e.ProbeEnds? && Enabled(w, e) && Present(w, key)
    ensures Happens(w, e, key) == Outcome(ProbeChange(w, e.p, e.success, key))
  {
    AllPresent(w, key);
    hide IsLive, IsDead, Shape, Live, Dead, Outcome, ChangeForProbe, Probed;
    ProbedOutcome(w.probes[e.p].remote == key, e.success, key in Live(w.tun.value));
  }

  // --------------------------------------------------------- over the run

  ghost predicate IsTold(w: World, key: SocketSpec, h: seq<Happening>) {
    Present(w, key) ==> TellsAll(RecOf(w, key).info, RecOf(w, key).book, h)
  }

  lemma StepTells(w: World, e: Event, key: SocketSpec, h: seq<Happening>)
    requires Shape(w) && Enabled(w, e) && Present(w, key) && Present(Step(w, e), key)
    requires TellsAll(RecOf(w, key).info, RecOf(w, key).book, h)
    ensures var r := RecOf(Step(w, e), key); TellsAll(r.info, r.book, h + Happens(w, e, key))
  {
    assert e.ProbeEnds? ==> e.p < |w.probes|;
    hide Step, Enabled, Shape, TellsAll, Happens, RecIn, PresentIn, Changed, CanChange, Outcome;
    if e.ProbeEnds? {
      ProbeRec(w, e.p, e.success, key);
      ProbeOutcome(w, e, key);
      ChangeTells(RecOf(w, key), ProbeChange(w, e.p, e.success, key), Till(w), h);
    } else if IsClientEvent(e) {
      ClientRec(w, e, key);
      ClientOutcome(w, e, key);
      ChangeTells(RecOf(w, key), ClientChange(w, e, key), Till(w), h);
    } else {
      QuietRec(w, e, key);
      NothingHappens(w, e, key);
      assert h + [] == h;
    }
  }

  lemma StepIsTold(w: World, e: Event, key: SocketSpec, h: seq<Happening>)
    requires Shape(w) && Enabled(w, e) && IsTold(w, key, h)
    ensures IsTold(Step(w, e), key, Then(w, e, key, h))
  {
    if Present(Step(w, e), key) {
      StepPresent(w, e, key);
      AllPresent(w, key);
      hide Step, Enabled, Shape, TellsAll, Happens, RecIn, PresentIn;
      if Present(w, key) {
        StepTells(w, e, key, h);
      } else {
        AddRec(w, key, key);
        NewTells(RecOf(Step(w, e), key));
      }
    }
  }

  lemma NewTells(r: Rec)
    requires IsNew(r)
    ensures TellsAll(r.info, r.book, [])
  {
  }

  lemma NothingHappens(w: World, e: Event, key: SocketSpec)
    requires Enabled(w, e) && !IsClientEvent(e) && !e.ProbeEnds?
    ensures Happens(w, e, key) == []
  {
  }

  lemma {:induction false} RunTells(w: World, es: seq<Event>, key: SocketSpec, h: seq<Happening>)
    requires Shape(w) && CanRun(w, es) && IsTold(w, key, h)
    ensures IsTold(Run(w, es), key, History(w, es, key, h))
    decreases |es|
  {
    hide Step, Enabled, Shape, IsTold, Then;
    if es != [] {
      StepShape(w, es[0]);
      StepIsTold(w, es[0], key, h);
      RunTells(Step(w, es[0]), es[1..], key, Then(w, es[0], key, h));
    }
  }

  /** What happened to a remote since it was added, in a run from the opening. */
  ghost function Life(w: World, es: seq<Event>, key: SocketSpec): (h: seq<Happening>)
    requires CanRun(w, es)
  {
    History(w, es, key, [])
  }

  lemma LifeTold(w: World, es: seq<Event>, key: SocketSpec)
    requires Initial(w) && CanRun(w, es)
    ensures IsTold(Run(w, es), key, Life(w, es, key))
  {
    InitialInvariant(w);
    assert Shape(w);
    if Present(w, key) {
      InitialRecord(w, key);
      NewTells(RecOf(w, key));
    }
    hide Initial, Invariant, Shape;
    RunTells(w, es, key, []);
  }

  /** The statistics of every remote, live or dead, are counts over the run. */
  lemma StatisticsAreTrue(w: World, es: seq<Event>, key: SocketSpec)
    requires Initial(w) && CanRun(w, es) && Run(w, es).tun.Some?
    requires key in Live(Run(w, es).tun.value) || key in Dead(Run(w, es).tun.value)
    ensures Tells(RecordOf(Run(w, es).tun.value, key), Life(w, es, key))
  {
    LifeTold(w, es, key);
    hide Initial, Life, Tells;
    assert Reachable(Run(w, es));
    ReachableGood(Run(w, es), key);
  }

  /** The client errors that a remote took note of since it was added are at most the
      limit times one more than its successful connects and its recoveries. */
  lemma FailuresBounded(w: World, es: seq<Event>, key: SocketSpec)
    requires Initial(w) && CanRun(w, es) && Run(w, es).tun.Some?
    requires key in Live(Run(w, es).tun.value) || key in Dead(Run(w, es).tun.value)
    ensures var h := Life(w, es, key);
            WithinBound(Count(h, ClientFailed), Count(h, Connected), Count(h, Recovery), Till(Run(w, es)))
  {
    LifeTold(w, es, key);
    assert Reachable(Run(w, es));
    hide Initial, Life, WithinBound, Good, CanRun, Run;
    ReachableGood(Run(w, es), key);
    FailureBound(RecOf(Run(w, es), key), Till(Run(w, es)));
  }

  /** How many probes failed in a run. */
  function ProbesFailed(es: seq<Event>): (n: nat)
    decreases |es|
  {
    if es == [] then 0 else (if es[0].ProbeEnds? && !es[0].success then 1 else 0) + ProbesFailed(es[1..])
  }

  lemma StepProbesFailed(w: World, e: Event)
    requires Enabled(w, e)
    ensures Step(w, e).probeFailures == w.probeFailures + if e.ProbeEnds? && !e.success then 1 else 0
  {
  }

  /** The errors that the tunnel counts besides those of its clients are these. */
  lemma {:induction false} FailuresAreProbes(w: World, es: seq<Event>)
    requires CanRun(w, es)
    ensures Run(w, es).probeFailures == w.probeFailures + ProbesFailed(es)
    decreases |es|
  {
    hide Step, Enabled;
    if es != [] {
      StepProbesFailed(w, es[0]);
      FailuresAreProbes(Step(w, es[0]), es[1..]);
    }
  }
}
