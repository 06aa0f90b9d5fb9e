/** The objects a relay polls: the two sides of a connection, the close signal and the
    progress callback.  Their methods are free to return any outcome that the
    contract allows, so a proof about a caller holds for every environment. */
module Endpoints {
  import opened Wrappers

  newtype byte = x: int | 0 <= x < 256

  datatype IoError = WriteZero | Transport(code: nat)

  type IoPoll<+T> = Poll<Result<T, IoError>>

  predicate Failed<T>(p: IoPoll<T>) {
    p.Ready? && p.value.Err?
  }

  predicate Finished<T>(p: IoPoll<T>) {
    p.Ready? && p.value.Ok?
  }

  /** The read side of a connection.  `incoming` is everything the peer sends
      before its end of stream and `taken` how much of it has been read since the
      copy began.  `polls` counts the polls and `parked` says whether the latest one
      returned Pending: if it did, its waker is the one that is registered. */
  class Source {
    const incoming: seq<byte>
    var taken: nat
    ghost var parked: bool
    ghost var polls: nat
    var error: Option<IoError>

    /** Polled since the counter was `mark`, and Pending at the latest poll. */
    ghost predicate Awaited(mark: nat)
      reads this
    {
      parked && polls > mark
    }

    ghost predicate Sane()
      reads this
    {
      taken <= |incoming|
    }

    ghost predicate Fresh()
      reads this
    {
      taken == 0 && error.None?
    }

    constructor (incoming: seq<byte>)
      ensures this.incoming == incoming && Fresh()
    {
      this.incoming := incoming;
      taken, parked, polls, error := 0, false, 0, None;
    }

    /** Appends bytes after the first `filled` bytes of `buf`, leaving those
        alone, and returns the new filled length.  Adding nothing to a buffer
        that has room means end of stream. */
    method PollRead(buf: array<byte>, filled: nat) returns (res: IoPoll<nat>)
      requires Sane() && filled <= buf.Length
      modifies this, buf
      ensures Sane() && buf[..filled] == old(buf[..filled])
      ensures parked == res.Pending? && polls == old(polls) + 1
      ensures error == if Failed(res) then Some(res.value.error) else old(error)
      ensures !Finished(res) ==> taken == old(taken)
      ensures Finished(res) ==>
                var n := res.value.value;
                && filled <= n <= buf.Length
                && taken == old(taken) + (n - filled)
                && buf[filled..n] == incoming[old(taken)..taken]
                && (n == filled < buf.Length ==> taken == |incoming|)
    {
      polls := polls + 1;
      if * {
        parked := true;
        return Pending;
      } else if * {
        var code: nat :| true;
        parked, error := false, Some(Transport(code));
        return Ready(Err(Transport(code)));
      }
      var room, left := buf.Length - filled, |incoming| - taken;
      var most := if room <= left then room else left;
      var count: nat :| count <= most && (count == 0 ==> most == 0);
      forall i | 0 <= i < count {
        buf[filled + i] := incoming[taken + i];
      }
      assert buf[filled..filled + count] == incoming[taken..taken + count];
      taken, parked := taken + count, false;
      return Ready(Ok(filled + count));
    }
  }

  datatype SinkPoll = Write | Flush | Shutdown

  /** The write side of a connection: what it has accepted since the copy began,
      how much of that is flushed, and how far the shutdown has come.  `polls` counts
      all polls; `parked` is the kind of the latest one if that returned Pending. */
  class Sink {
    var outgoing: seq<byte>
    var flushed: nat
    ghost var parked: Option<SinkPoll>
    ghost var polls: nat
    var shutStarted: bool
    var shutDone: bool
    var wroteZero: bool
    var error: Option<IoError>

    ghost predicate Sane()
      reads this
    {
      flushed <= |outgoing| && (shutDone ==> shutStarted)
    }

    ghost predicate Fresh()
      reads this
    {
      outgoing == [] && flushed == 0 && !shutStarted && !shutDone && !wroteZero && error.None?
    }

    /** Polled since the counter was `mark`, the latest time for `kind`, and Pending then. */
    ghost predicate Awaited(kind: SinkPoll, mark: nat)
      reads this
    {
      parked == Some(kind) && polls > mark
    }

    constructor ()
      ensures Fresh()
    {
      outgoing, flushed, error, wroteZero := [], 0, None, false;
      parked, polls := None, 0;
      shutStarted, shutDone := false, false;
    }

    /** Accepts some prefix of `data`. */
    method PollWrite(data: seq<byte>) returns (res: IoPoll<nat>)
      requires Sane() && !shutStarted
      modifies this
      ensures Sane() && !shutStarted && old(flushed) <= flushed
      ensures parked == (if res.Pending? then Some(Write) else None) && polls == old(polls) + 1
      ensures wroteZero == (Finished(res) && res.value.value == 0)
      ensures error == if Failed(res) then Some(res.value.error) else old(error)
      ensures !Finished(res) ==> outgoing == old(outgoing)
      ensures Finished(res) ==>
                res.value.value <= |data| && outgoing == old(outgoing) + data[..res.value.value]
    {
      wroteZero, polls, parked := false, polls + 1, None;
      if * {
        parked := Some(Write);
        return Pending;
      } else if * {
        var code: nat :| true;
        error := Some(Transport(code));
        return Ready(Err(Transport(code)));
      }
      var count: nat :| count <= |data|;
      outgoing, wroteZero := outgoing + data[..count], count == 0;
      var sentOn: nat :| flushed <= sentOn <= |outgoing|;
      flushed := sentOn;
      return Ready(Ok(count));
    }

    method PollFlush() returns (res: IoPoll<()>)
      requires Sane() && !shutStarted
      modifies this
      ensures Sane() && !shutStarted && old(flushed) <= flushed
      ensures outgoing == old(outgoing) && wroteZero == old(wroteZero)
      ensures parked == (if res.Pending? then Some(Flush) else None) && polls == old(polls) + 1
      ensures error == if Failed(res) then Some(res.value.error) else old(error)
      ensures Finished(res) ==> flushed == |outgoing|
    {
      polls, parked := polls + 1, None;
      if * {
        parked := Some(Flush);
        return Pending;
      } else if * {
        var code: nat :| true;
        error := Some(Transport(code));
        return Ready(Err(Transport(code)));
      }
      flushed := |outgoing|;
      return Ready(Ok(()));
    }

    method PollShutdown() returns (res: IoPoll<()>)
      requires Sane() && !shutDone
      modifies this
      ensures Sane() && shutStarted
      ensures parked == (if res.Pending? then Some(Shutdown) else None) && polls == old(polls) + 1
      ensures outgoing == old(outgoing) && flushed == old(flushed) && wroteZero == old(wroteZero)
      ensures error == if Failed(res) then Some(res.value.error) else old(error)
      ensures shutDone == Finished(res)
    {
      shutStarted, polls, parked := true, polls + 1, None;
      if * {
        parked := Some(Shutdown);
        return Pending;
      } else if * {
        var code: nat :| true;
        error := Some(Transport(code));
        return Ready(Err(Transport(code)));
      }
      shutDone := true;
      return Ready(Ok(()));
    }
  }

  /** Whether the close channel delivered a value or was dropped. */
  datatype Notice = Changed | ChannelError

  /** The future that resolves when the tunnel is closed.  It can be raised by
      another task at any moment; `mark` is the number of bytes the direction
      had written at that moment. */
  class StopSignal {
    var raised: bool
    ghost var mark: nat
    var completed: bool
    ghost var parked: bool
    ghost var polls: nat

    /** Polled since the counter was `mark`, and Pending at the latest poll. */
    ghost predicate Awaited(mark: nat)
      reads this
    {
      parked && polls > mark
    }

    constructor ()
      ensures !raised && !completed
    {
      raised, mark, completed, parked, polls := false, 0, false, false, 0;
    }

    /** Time passes: another task may raise the signal. */
    method Advance(ghost written: nat)
      modifies `raised, `mark
      ensures old(raised) ==> raised && mark == old(mark)
      ensures !old(raised) && raised ==> mark == written
    {
      if !raised {
        raised := *;
        mark := written;
      }
    }

    /** Like any completed future, this one must not be polled again. */
    method Poll() returns (res: Poll<Notice>)
      requires !completed
      modifies `completed, `parked, `polls
      ensures res.Ready? == raised == completed
      ensures parked == res.Pending? && polls == old(polls) + 1
    {
      completed, parked, polls := raised, !raised, polls + 1;
      if raised {
        var notice: Notice := *;
        return Ready(notice);
      }
      return Pending;
    }
  }

  function Total(reports: seq<nat>): (t: nat) {
    if reports == [] then 0 else Total(reports[..|reports| - 1]) + reports[|reports| - 1]
  }

  /** The progress callback: the list of arguments it was called with. */
  class Progress {
    var reports: seq<nat>

    constructor ()
      ensures reports == []
    {
      reports := [];
    }

    method Update(bytes: nat)
      modifies this
      ensures reports == old(reports) + [bytes]
      ensures Total(reports) == Total(old(reports)) + bytes
    {
      reports := reports + [bytes];
      assert reports[..|reports| - 1] == old(reports);
    }
  }
}
