/** The relay engine: copying one direction through a fixed buffer, and two such
    directions over a pair of connections. */
module Relay {
  import opened Wrappers
  import opened Endpoints

  /** The books of one direction: the bytes taken from the source are the bytes
      written followed by the bytes held, and the progress reports
      add up to the number of bytes written. */
  ghost predicate Books(source: seq<byte>, taken: nat, written: seq<byte>, held: seq<byte>, reports: seq<nat>) {
    && taken <= |source| && source[..taken] == written + held
    && Total(reports) == |written|
  }

  lemma BooksPrefix(source: seq<byte>, taken: nat, written: seq<byte>, held: seq<byte>, reports: seq<nat>)
    requires Books(source, taken, written, held, reports)
    ensures |written| <= taken && written == source[..|written|]
  {
    assert written == source[..taken][..|written|];
  }

  lemma BooksRead(source: seq<byte>, taken: nat, written: seq<byte>, held: seq<byte>, reports: seq<nat>, more: nat)
    requires Books(source, taken, written, held, reports) && taken <= more <= |source|
    ensures Books(source, more, written, held + source[taken..more], reports)
  {
    assert source[..more] == source[..taken] + source[taken..more];
  }

  lemma BooksWrite(source: seq<byte>, taken: nat, written: seq<byte>, held: seq<byte>, reports: seq<nat>, i: nat)
    requires Books(source, taken, written, held, reports) && 0 < i <= |held|
    ensures Books(source, taken, written + held[..i], held[i..], reports + [i])
  {
    assert held == held[..i] + held[i..];
    assert (reports + [i])[..|reports|] == reports;
  }

  /** The bound on what is still written after the signal was raised. */
  ghost predicate StopsSoon(w: Sink, finish: StopSignal, size: nat)
    reads w, finish
  {
    finish.raised ==> |w.outgoing| <= finish.mark + size
  }

  /** No operation of this direction has failed. */
  ghost predicate Clean(r: Source, w: Sink)
    reads r, w
  {
    r.error.None? && w.error.None? && !w.wroteZero
  }

  /** `e` is what an operation of this direction failed with. */
  ghost predicate Blamed(e: IoError, r: Source, w: Sink)
    reads r, w
  {
    || r.error == Some(e) || w.error == Some(e)
    || (e == WriteZero && w.wroteZero)
  }

  /** How often the source, the sink and the close signal of a direction were polled. */
  datatype Polls = Polls(read: nat, write: nat, finish: nat)

  ghost function PollsOf(r: Source, w: Sink, finish: StopSignal): (polls: Polls)
    reads r, w, finish
  {
    Polls(r.polls, w.polls, finish.polls)
  }

  function SumOf(polls: Polls): (n: nat) {
    polls.read + polls.write + polls.finish
  }

  ghost predicate NoFewer(before: Polls, after: Polls) {
    before.read <= after.read && before.write <= after.write && before.finish <= after.finish
  }

  class CopyBuffer {
    var readDone: bool
    var needFlush: bool
    var pos: nat
    var cap: nat
    var amt: nat
    const buf: array<byte>
    const progress: Progress
    const finish: StopSignal

    ghost predicate Bounds()
      reads this
    {
      pos <= cap <= buf.Length
    }

    ghost predicate Kept(pos: nat, amt: nat, needFlush: bool)
      reads this
    {
      this.pos == pos && this.amt == amt && this.needFlush == needFlush
    }

    ghost function Held(): (held: seq<byte>)
      requires Bounds()
      reads this, buf
      ensures |held| == cap - pos
    {
      buf[pos..cap]
    }

    /** The ledger of the buffer: bytes read == bytes written ++ buf[pos..cap]. */
    ghost predicate Ledger(r: Source, w: Sink)
      reads this, buf, progress, r, w
    {
      && Bounds() && r.Sane() && w.Sane()
      && Books(r.incoming, r.taken, w.outgoing, Held(), progress.reports)
      && amt == |w.outgoing|
      && (buf.Length == 0 ==> r.taken == 0)
      && (readDone && buf.Length > 0 ==> r.taken == |r.incoming|)
      && (!needFlush ==> w.flushed == |w.outgoing|)
    }

    /** What holds between two polls of a copy that has not completed. */
    ghost predicate Valid(r: Source, w: Sink)
      reads this, buf, progress, finish, r, w
    {
      && Ledger(r, w) && StopsSoon(w, finish, buf.Length)
      && !finish.completed && !w.shutStarted && Clean(r, w)
    }

    /** A copy that returned Pending has polled the close signal and exactly what it
        lacks after the polls counted in `since`, and was refused: with an empty buffer everything written
        has been flushed and more input is awaited, or a flush is; otherwise room to
        write. */
    ghost predicate Waiting(r: Source, w: Sink, since: Polls)
      reads this, finish, r, w
    {
      && finish.Awaited(since.finish)
      && (|| (pos == cap && !readDone && r.Awaited(since.read) && w.flushed == |w.outgoing| && !needFlush)
          || (pos == cap && w.Awaited(Flush, since.write))
          || (pos < cap && w.Awaited(Write, since.write)))
    }

    constructor (size: nat, progress: Progress, finish: StopSignal)
      ensures fresh(buf) && buf.Length == size
      ensures this.progress == progress && this.finish == finish
      ensures !readDone && !needFlush && pos == cap == amt == 0
    {
      readDone, needFlush := false, false;
      pos, cap, amt := 0, 0, 0;
      buf := new byte[size](_ => 0);
      this.progress, this.finish := progress, finish;
    }

    method PollFillBuf(r: Source) returns (res: IoPoll<()>)
      requires Bounds() && r.Sane()
      modifies this, buf, r
      ensures Bounds() && r.Sane() && Kept(old(pos), old(amt), old(needFlush))
      ensures old(r.taken) <= r.taken && old(cap) <= cap
      ensures r.parked == res.Pending? && r.polls == old(r.polls) + 1
      ensures r.error == if Failed(res) then Some(res.value.error) else old(r.error)
      ensures !Finished(res) ==> readDone == old(readDone) && cap == old(cap) && r.taken == old(r.taken)
      ensures Finished(res) ==> readDone == (cap == old(cap)) && r.taken - old(r.taken) == cap - old(cap)
      ensures Finished(res) && readDone && old(cap) < buf.Length ==> r.taken == |r.incoming|
      ensures Held() == old(Held()) + r.incoming[old(r.taken)..r.taken]
    {
      var filled := r.PollRead(buf, cap);
      assert buf[pos..old(cap)] == buf[..old(cap)][pos..];
      match filled
      case Pending => res := Pending;
      case Ready(Err(e)) => res := Ready(Err(e));
      case Ready(Ok(filledLen)) =>
        readDone := cap == filledLen;
        assert buf[pos..filledLen] == buf[pos..cap] + buf[cap..filledLen];
        cap := filledLen;
        res := Ready(Ok(()));
    }

    method PollWriteBuf(r: Source, w: Sink) returns (res: IoPoll<nat>)
      requires Ledger(r, w) && Clean(r, w) && !w.shutStarted && pos < cap
      modifies this, buf, r, w
      ensures Bounds() && r.Sane() && w.Sane() && Kept(old(pos), old(amt), old(needFlush))
      ensures old(cap) <= cap && old(w.flushed) <= w.flushed && !w.shutStarted
      ensures !Finished(res) ==> w.outgoing == old(w.outgoing) && Ledger(r, w) && !w.wroteZero
      ensures Finished(res) ==>
                && res.value.value <= cap - pos && w.outgoing == old(w.outgoing) + Held()[..res.value.value]
                && w.parked.None? && w.wroteZero == (res.value.value == 0)
      ensures w.polls == old(w.polls) + 1
      // Only a refused write tops the buffer up, and then exactly when that can help.
      ensures w.parked.None? ==>
                && readDone == old(readDone) && cap == old(cap) && Held() == old(Held()) && r.taken == old(r.taken)
                && r.polls == old(r.polls)
      ensures old(r.polls) <= r.polls && (w.parked.None? || w.parked == Some(Write))
      ensures res.Pending? ==> w.parked == Some(Write)
      ensures res.Pending? && !readDone && cap == old(cap) < buf.Length ==> r.Awaited(old(r.polls))
      ensures Failed(res) ==> (r.error == Some(res.value.error) && w.parked == Some(Write)) || w.error == Some(res.value.error)
      ensures !Failed(res) ==> r.error.None? && w.error.None?
    {
      var written := w.PollWrite(buf[pos..cap]);
      if written.Ready? {
        return written;
      }
      if !readDone && cap < buf.Length {
        ghost var before, had := r.taken, Held();
        var filled := PollFillBuf(r);
        BooksRead(r.incoming, before, w.outgoing, had, progress.reports, r.taken);
        if Failed(filled) {
          return Ready(Err(filled.value.error));
        }
      }
      return Pending;
    }

    /** Refills the empty buffer.  A peer may answer only what has reached it, so
        before waiting for input everything written is flushed. */
    method FillOrFlush(r: Source, w: Sink) returns (res: IoPoll<()>)
      requires Ledger(r, w) && Clean(r, w) && !w.shutStarted && pos == cap && !readDone
      modifies this, buf, r, w
      ensures Ledger(r, w)
      ensures w.outgoing == old(w.outgoing) && !w.shutStarted
      ensures old(r.polls) < r.polls && old(w.polls) <= w.polls
      ensures res.Pending? ==>
                && pos == cap && !readDone && r.taken == old(r.taken)
                && ((r.Awaited(old(r.polls)) && w.flushed == |w.outgoing|) || w.Awaited(Flush, old(w.polls)))
      // A flush is polled only if something was written since the last one.
      ensures !old(needFlush) ==> w.polls == old(w.polls)
      ensures res.Pending? ==> (needFlush <==> w.Awaited(Flush, old(w.polls)))
      ensures Finished(res) ==> needFlush == old(needFlush) && w.polls == old(w.polls)
      ensures Finished(res) ==> if readDone then pos == cap && r.taken == old(r.taken) else r.taken > old(r.taken)
      ensures if Failed(res) then Blamed(res.value.error, r, w) else Clean(r, w)
    {
      ghost var taken := r.taken;
      assert Held() == [];
      pos, cap := 0, 0;
      assert Held() == [];
      var filled := PollFillBuf(r);
      BooksRead(r.incoming, taken, w.outgoing, [], progress.reports, r.taken);
      if filled.Pending? && needFlush {
        var flush := w.PollFlush();
        if !Finished(flush) {
          return flush;
        }
        needFlush := false;
      }
      return filled;
    }

    /** Writes once from the buffer and books what was written. */
    method WriteOnce(r: Source, w: Sink) returns (res: IoPoll<()>)
      requires Ledger(r, w) && Clean(r, w) && !w.shutStarted && pos < cap
      modifies this, buf, progress, r, w
      ensures Ledger(r, w) && !w.shutStarted
      ensures Finished(res) ==> pos > old(pos) && cap == old(cap) && r.taken == old(r.taken) && readDone == old(readDone)
      ensures |w.outgoing| - old(|w.outgoing|) == pos - old(pos)
      ensures !Finished(res) ==> pos == old(pos) && cap >= old(cap)
      ensures old(r.polls) <= r.polls && old(w.polls) < w.polls
      ensures res.Pending? ==> w.parked == Some(Write)
      ensures if Failed(res) then Blamed(res.value.error, r, w) else Clean(r, w)
    {
      var written := PollWriteBuf(r, w);
      if !Finished(written) {
        return if written.Pending? then Pending else Ready(Err(written.value.error));
      }
      var i := written.value.value;
      if i == 0 {
        assert w.outgoing == old(w.outgoing);
        return Ready(Err(WriteZero));
      }
      BooksWrite(r.incoming, r.taken, old(w.outgoing), Held(), progress.reports, i);
      pos := pos + i;
      assert Held() == old(Held())[i..];
      progress.Update(i);
      amt := amt + i;
      needFlush := true;
      return Ready(Ok(()));
    }

    /** The second part of the copy loop: write the buffered bytes out.  The
        signal may be raised before any of the writes. */
    method WriteOut(r: Source, w: Sink) returns (res: IoPoll<()>)
      requires Ledger(r, w) && Clean(r, w) && !w.shutStarted && !finish.raised
      modifies this, buf, progress, finish`raised, finish`mark, r, w
      ensures Ledger(r, w) && !w.shutStarted && StopsSoon(w, finish, buf.Length)
      ensures old(r.polls) <= r.polls && old(w.polls) <= w.polls
      ensures res.Pending? ==> pos < cap && w.Awaited(Write, old(w.polls))
      ensures Finished(res) ==> pos == cap && r.taken == old(r.taken) && readDone == old(readDone)
      ensures if Failed(res) then Blamed(res.value.error, r, w) else Clean(r, w)
    {
      hide Books, Blamed;
      res := Ready(Ok(()));
      while pos < cap && Finished(res)
        invariant Ledger(r, w) && !w.shutStarted && StopsSoon(w, finish, buf.Length)
        invariant if Failed(res) then Blamed(res.value.error, r, w) else Clean(r, w)
        invariant finish.raised && Finished(res) ==> |w.outgoing| + (cap - pos) <= finish.mark + buf.Length
        invariant Finished(res) ==> r.taken == old(r.taken) && readDone == old(readDone)
        invariant old(r.polls) <= r.polls && old(w.polls) <= w.polls
        invariant res.Pending? ==> pos < cap && w.Awaited(Write, old(w.polls))
        decreases Finished(res), cap - pos
      {
        finish.Advance(|w.outgoing|);
        res := WriteOnce(r, w);
      }
    }

    /** The rest of one turn of the copy loop, once the close signal was found
        not to be raised.  None means: go round again. */
    method CopyTurn(r: Source, w: Sink, ghost since: Polls) returns (res: Option<IoPoll<nat>>)
      requires Ledger(r, w) && Clean(r, w) && !w.shutStarted
      requires !finish.raised && !finish.completed
      requires NoFewer(since, PollsOf(r, w, finish)) && finish.Awaited(since.finish)
      modifies this, buf, progress, finish`raised, finish`mark, r, w
      ensures Ledger(r, w) && !w.shutStarted && StopsSoon(w, finish, buf.Length)
      ensures res.None? ==> pos == cap && (r.taken > old(r.taken) || (r.taken == old(r.taken) && old(pos < cap)))
      ensures NoFewer(since, PollsOf(r, w, finish))
      ensures res.Some? && res.value.Pending? ==> Waiting(r, w, since)
      ensures res.Some? && Finished(res.value) ==>
                res.value.value.value == amt && pos == cap && readDone && w.flushed == |w.outgoing|
      ensures if res.Some? && Failed(res.value) then Blamed(res.value.value.error, r, w) else Clean(r, w)
    {
      hide Books;
      var step: IoPoll<()>;
      if pos == cap && !readDone {
        step := FillOrFlush(r, w);
        if !Finished(step) {
          return Some(if step.Pending? then Pending else Ready(Err(step.value.error)));
        }
      }
      step := WriteOut(r, w);
      if Finished(step) && readDone {
        step := w.PollFlush();
        if Finished(step) {
          return Some(Ready(Ok(amt)));
        }
      }
      return if Finished(step) then None else Some(if step.Pending? then Pending else Ready(Err(step.value.error)));
    }

    /** Copies until something is Pending, the source is drained and flushed, an
        error occurs or the close signal is seen at the head of the loop. */
    method PollCopy(r: Source, w: Sink) returns (res: IoPoll<nat>)
      requires Valid(r, w)
      modifies this, buf, progress, finish, r, w
      ensures Ledger(r, w) && StopsSoon(w, finish, buf.Length) && !w.shutStarted
      ensures NoFewer(old(PollsOf(r, w, finish)), PollsOf(r, w, finish))
      ensures res.Pending? ==> Waiting(r, w, old(PollsOf(r, w, finish)))
      ensures Finished(res) ==> res.value.value == amt
      ensures Finished(res) && !finish.completed ==> pos == cap && readDone && w.flushed == |w.outgoing|
      ensures finish.completed ==> Finished(res) && finish.raised
      ensures old(finish.raised) ==>
                && finish.completed && finish.mark == old(finish.mark)
                && w.outgoing == old(w.outgoing) && r.taken == old(r.taken)
      ensures if Failed(res) then Blamed(res.value.error, r, w) else Clean(r, w)
    {
      hide Books, Blamed, Waiting;
      var turn: Option<IoPoll<nat>> := None;
      while turn.None?
        invariant Ledger(r, w) && StopsSoon(w, finish, buf.Length) && !w.shutStarted
        invariant if turn.Some? && Failed(turn.value) then Blamed(turn.value.value.error, r, w) else Clean(r, w)
        invariant NoFewer(old(PollsOf(r, w, finish)), PollsOf(r, w, finish))
        invariant turn.Some? && turn.value.Pending? ==> Waiting(r, w, old(PollsOf(r, w, finish)))
        invariant turn.Some? && Finished(turn.value) ==>
                    && turn.value.value.value == amt
                    && (!finish.completed ==> pos == cap && readDone && w.flushed == |w.outgoing|)
        invariant finish.completed ==> turn.Some? && Finished(turn.value) && finish.raised
        invariant old(finish.raised) ==>
                    && finish.raised && finish.mark == old(finish.mark) && (turn.Some? ==> finish.completed)
                    && w.outgoing == old(w.outgoing) && r.taken == old(r.taken)
        decreases turn.None?, |r.incoming| - r.taken, cap - pos
      {
        finish.Advance(|w.outgoing|);
        var notice := finish.Poll();
        if notice.Ready? {
          turn := Some(Ready(Ok(amt)));
        } else {
          turn := CopyTurn(r, w, old(PollsOf(r, w, finish)));
        }
      }
      return turn.value;
    }
  }

  /** The direction is over, or the polls after those counted in `since` have ended with
      a refusal: of the shutdown, or of the close signal and of a write, a flush or,
      with everything written flushed, a read. */
  ghost predicate Stalled(r: Source, w: Sink, finish: StopSignal, since: Polls)
    reads r, w, finish
  {
    || w.shutDone || w.Awaited(Shutdown, since.write)
    || (&& finish.Awaited(since.finish)
        && (|| w.Awaited(Write, since.write) || w.Awaited(Flush, since.write)
            || (r.Awaited(since.read) && w.flushed == |w.outgoing|)))
  }

  datatype TransferState = Running(buffer: CopyBuffer) | ShuttingDown(count: nat) | Done(count: nat)

  /** A direction only moves Running, ShuttingDown, Done, and keeps its count. */
  predicate Advances(from: TransferState, to: TransferState) {
    match from
    case Running(_) => to.Running? ==> to == from
    case ShuttingDown(n) => to == from || to == Done(n)
    case Done(_) => to == from
  }

  /** One direction: its two ends, its close signal, its progress callback and
      the state that polling it overwrites. */
  class Direction {
    const r: Source
    const w: Sink
    const progress: Progress
    const finish: StopSignal
    ghost const size: nat
    var state: TransferState

    ghost const repr: set<object>  // all of these, and the buffer with its bytes

    /** What one direction has done so far, whatever became of it: the bytes
        written are the first bytes of the source, in order and reported exactly,
        and few are written after the close signal. */
    ghost predicate Faithful()
      reads r, w, progress, finish
    {
      && r.Sane() && w.Sane() && |w.outgoing| <= r.taken
      && w.outgoing == r.incoming[..|w.outgoing|]
      && Total(progress.reports) == |w.outgoing|
      && StopsSoon(w, finish, size)
    }

    /** The copying is over with `n` bytes written: on the close signal, or at the
        end of the source, which has then been written completely and flushed.
        A buffer of size 0 takes the first read for the end of the source. */
    ghost predicate Copied(n: nat)
      reads r, w, progress, finish
    {
      && Faithful() && n == |w.outgoing|
      && (if finish.completed then finish.raised
          else w.flushed == n == if size > 0 then |r.incoming| else 0)
    }

    /** What holds between two polls, unless one has failed. */
    ghost predicate Valid()
      reads this, repr
    {
      && {this, r, w, progress, finish} <= repr
      && match state {
           case Running(buffer) =>
             && {buffer, buffer.buf} <= repr
             && buffer.progress == progress && buffer.finish == finish && buffer.buf.Length == size
             && buffer.Valid(r, w)
           case ShuttingDown(n) => Copied(n) && !w.shutDone
           case Done(n) => Copied(n) && w.shutDone
         }
    }

    ghost function PollsNow(): (polls: Polls)
      reads r, w, finish
    {
      PollsOf(r, w, finish)
    }

    /** What a direction that is not done has polled after the polls counted in `since` and waits for. */
    ghost predicate Waiting(since: Polls)
      reads this, repr
    {
      && {this, r, w, finish} <= repr
      && match state {
           case Running(buffer) => buffer in repr && buffer.finish == finish && buffer.Waiting(r, w, since)
           case ShuttingDown(_) => w.Awaited(Shutdown, since.write)
           case Done(_) => false
         }
    }

    lemma WaitingStalled(since: Polls)
      requires Waiting(since) && NoFewer(since, PollsNow())
      ensures Stalled(r, w, finish, since) && SumOf(PollsNow()) > SumOf(since)
    {
    }

    constructor (r: Source, w: Sink, progress: Progress, finish: StopSignal, size: nat)
      requires r.Fresh() && w.Fresh() && progress.reports == [] && !finish.completed
      ensures Valid() && state.Running? && fresh(repr - {r, w, progress, finish})
      ensures this.r == r && this.w == w && this.progress == progress && this.finish == finish && this.size == size
    {
      this.r, this.w, this.progress, this.finish, this.size := r, w, progress, finish, size;
      var buffer := new CopyBuffer(size, progress, finish);
      state := Running(buffer);
      repr := {this, r, w, progress, finish, buffer, buffer.buf};
    }

    lemma LedgerFaithful(buffer: CopyBuffer)
      requires buffer.Ledger(r, w) && StopsSoon(w, finish, size)
      requires buffer.progress == progress
      ensures Faithful()
      ensures buffer.pos == buffer.cap ==> r.taken == |w.outgoing|
    {
      BooksPrefix(r.incoming, r.taken, w.outgoing, buffer.Held(), progress.reports);
    }

    lemma ValidFaithful()
      requires Valid()
      ensures Faithful()
    {
      if state.Running? {
        LedgerFaithful(state.buffer);
      }
    }

    /** The Running arm: poll the copy and move on when it is complete. */
    method Continue(ghost since: Polls) returns (res: IoPoll<nat>)
      requires Valid() && state.Running? && NoFewer(since, PollsNow())
      modifies repr
      ensures Faithful() && !w.shutDone
      ensures state == if Finished(res) then ShuttingDown(res.value.value) else old(state)
      ensures Finished(res) ==> Copied(state.count)
      ensures NoFewer(since, PollsNow())
      ensures res.Pending? ==> Valid() && Waiting(since)
      ensures Failed(res) ==> Blamed(res.value.error, r, w)
      ensures old(finish.raised) ==> Finished(res) && w.outgoing == old(w.outgoing)
    {
      res := state.buffer.PollCopy(r, w);
      LedgerFaithful(state.buffer);
      if Finished(res) {
        state := ShuttingDown(res.value.value);
      }
    }

    /** The ShuttingDown arm: everything is copied, only the shutdown is left. */
    method ShutDown(ghost since: Polls) returns (res: IoPoll<()>)
      requires Valid() && state.ShuttingDown? && NoFewer(since, PollsNow())
      modifies repr
      ensures state == if Finished(res) then Done(old(state).count) else old(state)
      ensures Copied(state.count) && w.shutDone == Finished(res)
      ensures w.outgoing == old(w.outgoing)
      ensures NoFewer(since, PollsNow())
      ensures res.Pending? ==> Waiting(since)
      ensures Failed(res) ==> Blamed(res.value.error, r, w)
    {
      res := w.PollShutdown();
      if Finished(res) {
        state := Done(state.count);
      }
    }

    /** Advances the direction as far as it goes without waiting. */
    method TransferOneDirection() returns (res: IoPoll<nat>)
      requires Valid()
      modifies repr
      ensures Faithful() && Advances(old(state), state)
      ensures !Failed(res) ==> Valid()
      ensures res.Pending? ==> Waiting(old(PollsNow()))
      ensures Finished(res) ==> state == Done(res.value.value)
      ensures Failed(res) ==> Blamed(res.value.error, r, w)
      ensures !old(state).Running? || old(finish.raised) ==> w.outgoing == old(w.outgoing)
      ensures old(state).Done? ==> Finished(res)
      ensures NoFewer(old(PollsNow()), PollsNow())
    {
      var out: Option<IoPoll<nat>> := None;
      ValidFaithful();
      while out.None?
        invariant Faithful() && Advances(old(state), state)
        invariant !(out.Some? && Failed(out.value)) ==> Valid()
        invariant NoFewer(old(PollsNow()), PollsNow())
        invariant out.Some? && out.value.Pending? ==> Waiting(old(PollsNow()))
        invariant out.Some? && Finished(out.value) ==> state == Done(out.value.value.value)
        invariant out.Some? && Failed(out.value) ==> Blamed(out.value.value.error, r, w) && !old(state).Done?
        invariant out.None? && state.Running? ==> finish.raised == old(finish.raised) && w.outgoing == old(w.outgoing)
        invariant !old(state).Running? || old(finish.raised) ==> w.outgoing == old(w.outgoing)
        decreases out.None?, !state.Done?, state.Running?
      {
        match state
        case Running(_) =>
          var copied := Continue(old(PollsNow()));
          if !Finished(copied) {
            out := Some(copied);
          }
        case ShuttingDown(_) =>
          var shut := ShutDown(old(PollsNow()));
          if !Finished(shut) {
            out := Some(if shut.Pending? then Pending else Ready(Err(shut.value.error)));
          }
        case Done(count) =>
          out := Some(Ready(Ok(count)));
      }
      res := out.value;
    }
  }

  class CopyBidirectional {
    const aToB: Direction
    const bToA: Direction
    ghost var completed: bool
    ghost var polls: nat  // how often this future was polled

    ghost predicate Separate() {
      && {aToB, aToB.r, aToB.w, aToB.progress, aToB.finish} <= aToB.repr
      && {bToA, bToA.r, bToA.w, bToA.progress, bToA.finish} <= bToA.repr
      && aToB.repr !! bToA.repr && this !in aToB.repr && this !in bToA.repr
    }

    /** What holds between two polls of a future that has not completed. */
    ghost predicate Valid()
      reads this, aToB, bToA, aToB.repr, bToA.repr
    {
      !completed && Separate() && aToB.Valid() && bToA.Valid()
    }

    /** Pending is returned only while some direction is not done, and every such
        direction has polled since `up` or `down` what it waits for. */
    ghost predicate Waiting(up: Polls, down: Polls)
      reads this, aToB, bToA, aToB.repr, bToA.repr
    {
      && !(aToB.state.Done? && bToA.state.Done?)
      && (aToB.state.Done? || aToB.Waiting(up))
      && (bToA.state.Done? || bToA.Waiting(down))
    }

    constructor (aToB: Direction, bToA: Direction)
      requires aToB.Valid() && bToA.Valid() && aToB.repr !! bToA.repr
      ensures Valid() && this.aToB == aToB && this.bToA == bToA && polls == 0
    {
      this.aToB, this.bToA, completed, polls := aToB, bToA, false, 0;
    }

    /** Both directions are polled, the upstream one first; an error of either
        ends the whole future at once. */
    method Poll() returns (res: IoPoll<(nat, nat)>)
      requires Valid()
      modifies this, aToB.repr, bToA.repr
      ensures aToB.Faithful() && bToA.Faithful() && completed == res.Ready? && polls == old(polls) + 1
      ensures NoFewer(old(aToB.PollsNow()), aToB.PollsNow()) && NoFewer(old(bToA.PollsNow()), bToA.PollsNow())
      ensures Advances(old(aToB.state), aToB.state) && Advances(old(bToA.state), bToA.state)
      ensures res.Pending? ==> Valid() && Waiting(old(aToB.PollsNow()), old(bToA.PollsNow()))
      ensures Finished(res) ==>
                && aToB.state == Done(res.value.value.0) && bToA.state == Done(res.value.value.1)
                && aToB.Valid() && bToA.Valid()
      ensures Failed(res) ==>
                Blamed(res.value.error, aToB.r, aToB.w) || Blamed(res.value.error, bToA.r, bToA.w)
      ensures !old(aToB.state).Running? || old(aToB.finish.raised) ==> aToB.w.outgoing == old(aToB.w.outgoing)
      ensures !old(bToA.state).Running? || old(bToA.finish.raised) ==> bToA.w.outgoing == old(bToA.w.outgoing)
    {
      hide Direction.Valid, Direction.Faithful, Direction.Waiting, Blamed;
      polls := polls + 1;
      var up := aToB.TransferOneDirection();
      if Failed(up) {
        bToA.ValidFaithful();
        res := Ready(Err(up.value.error));
      } else {
        var down := bToA.TransferOneDirection();
        res := if Failed(down) then Ready(Err(down.value.error))
               else if up.Pending? || down.Pending? then Pending
               else Ready(Ok((up.value.value, down.value.value)));
      }
      completed := res.Ready?;
    }
  }

  /** An open connection, seen from the process that relays it. */
  datatype Connection = Connection(read: Source, write: Sink)

  /** The whole source has reached the sink, is flushed and is followed by a shutdown. */
  ghost predicate Delivered(r: Source, w: Sink)
    reads r, w
  {
    w.outgoing == r.incoming && w.flushed == |w.outgoing| && w.shutDone
  }

  /** The written bytes are the first bytes of the source and were all reported. */
  ghost predicate PrefixReported(r: Source, w: Sink, progress: Progress)
    reads r, w, progress
  {
    w.outgoing <= r.incoming && Total(progress.reports) == |w.outgoing|
  }

  lemma FaithfulReported(d: Direction)
    requires d.Faithful()
    ensures PrefixReported(d.r, d.w, d.progress) && StopsSoon(d.w, d.finish, d.size)
  {
  }

  lemma DoneDelivered(d: Direction)
    requires d.Valid() && d.state.Done?
    ensures d.state.count == |d.w.outgoing|
    ensures !d.finish.completed ==> (Delivered(d.r, d.w) <==> d.size > 0 || d.r.incoming == [])
  {
    if !d.finish.completed && d.size > 0 {
      assert d.r.incoming[..|d.r.incoming|] == d.r.incoming;
    }
  }

  /** After `polls` polls of the relay that were all Pending: what they have polled of
      the two directions, since the counts `up` and `down`, and what they wait for. */
  ghost predicate Waited(a: Connection, b: Connection, finish1: StopSignal, finish2: StopSignal, polls: nat, up: Polls, down: Polls)
    reads a.read, a.write, b.read, b.write, finish1, finish2
  {
    && NoFewer(up, PollsOf(a.read, b.write, finish1)) && NoFewer(down, PollsOf(b.read, a.write, finish2))
    && SumOf(PollsOf(a.read, b.write, finish1)) + SumOf(PollsOf(b.read, a.write, finish2)) >= SumOf(up) + SumOf(down) + polls
    && (polls > 0 ==>
          && Stalled(a.read, b.write, finish1, up) && Stalled(b.read, a.write, finish2, down)
          && !(a.write.shutDone && b.write.shutDone))
  }

  /** One more poll that was Pending. */
  lemma WaitedOnce(copy: CopyBidirectional, a: Connection, b: Connection, polls: nat, up: Polls, down: Polls, up': Polls, down': Polls)
    requires copy.Valid() && copy.Waiting(up', down')
    requires copy.aToB.r == a.read && copy.aToB.w == b.write && copy.bToA.r == b.read && copy.bToA.w == a.write
    requires NoFewer(up, up') && NoFewer(down, down') && SumOf(up') + SumOf(down') >= SumOf(up) + SumOf(down) + polls
    requires NoFewer(up', copy.aToB.PollsNow()) && NoFewer(down', copy.bToA.PollsNow())
    ensures Waited(a, b, copy.aToB.finish, copy.bToA.finish, polls + 1, up, down)
  {
    if !copy.aToB.state.Done? {
      copy.aToB.WaitingStalled(up');
    }
    if !copy.bToA.state.Done? {
      copy.bToA.WaitingStalled(down');
    }
  }

  /** The relay of one client, polled `polls` times or until it is ready: whatever the
      streams, the close signals and the scheduler do, this is what has happened then. */
  method CopyStreams(a: Connection, b: Connection, sent: Progress, received: Progress,
                     finish1: StopSignal, finish2: StopSignal, size: nat, polls: nat)
    returns (res: IoPoll<(nat, nat)>, ghost copy: CopyBidirectional)
    requires a.read != b.read && a.write != b.write && sent != received && finish1 != finish2
    requires a.read.Fresh() && a.write.Fresh() && b.read.Fresh() && b.write.Fresh()
    requires sent.reports == received.reports == []
    requires !finish1.completed && !finish2.completed
    modifies a.read, a.write, b.read, b.write, sent, received, finish1, finish2
    ensures PrefixReported(a.read, b.write, sent) && PrefixReported(b.read, a.write, received)
    ensures StopsSoon(b.write, finish1, size) && StopsSoon(a.write, finish2, size)
    ensures Finished(res) ==> res.value.value == (|b.write.outgoing|, |a.write.outgoing|)
    ensures Finished(res) && !finish1.completed ==>
              (Delivered(a.read, b.write) <==> size > 0 || a.read.incoming == [])
    ensures Finished(res) && !finish2.completed ==>
              (Delivered(b.read, a.write) <==> size > 0 || b.read.incoming == [])
    ensures Failed(res) ==> Blamed(res.value.error, a.read, b.write) || Blamed(res.value.error, b.read, a.write)
    ensures if res.Pending? then copy.polls == polls else 0 < copy.polls <= polls
    ensures fresh(copy) && copy.aToB.size == copy.bToA.size == size
    ensures res.Pending? ==>
              Waited(a, b, finish1, finish2, polls, old(PollsOf(a.read, b.write, finish1)), old(PollsOf(b.read, a.write, finish2)))
  {
    var up := new Direction(a.read, b.write, sent, finish1, size);
    var down := new Direction(b.read, a.write, received, finish2, size);
    var relay := new CopyBidirectional(up, down);
    copy, res := relay, Pending;
    up.ValidFaithful();
    down.ValidFaithful();
    hide Direction.Valid, Direction.Faithful, Blamed;
    for i := 0 to polls
      invariant copy.aToB == up && copy.bToA == down && up.Faithful() && down.Faithful()
      invariant if res.Pending? then copy.Valid() && copy.polls == i else 0 < copy.polls <= i
      invariant res.Pending? ==>
                  Waited(a, b, finish1, finish2, i, old(PollsOf(a.read, b.write, finish1)), old(PollsOf(b.read, a.write, finish2)))
      invariant Finished(res) ==>
                  && up.Valid() && down.Valid()
                  && up.state == Done(res.value.value.0) && down.state == Done(res.value.value.1)
      invariant Failed(res) ==> Blamed(res.value.error, up.r, up.w) || Blamed(res.value.error, down.r, down.w)
    {
      if res.Pending? {
        ghost var before1, before2 := up.PollsNow(), down.PollsNow();
        res := relay.Poll();
        if res.Pending? {
          WaitedOnce(relay, a, b, i, old(PollsOf(a.read, b.write, finish1)), old(PollsOf(b.read, a.write, finish2)), before1, before2);
        }
      }
    }
    FaithfulReported(up);
    FaithfulReported(down);
    if Finished(res) {
      DoneDelivered(up);
      DoneDelivered(down);
    }
  }
}
