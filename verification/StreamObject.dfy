/** The class `Stream` with its shared buffer, over an abstract transport. */
module StreamObject {
  import opened Common
  import opened Bytes
  import RA = ReadAhead
  import opened InlineReads

  class Stream {
    var buffer: seq<byte>
    /** What the transport's next `read_some` calls will return. */
    var chunks: seq<seq<byte>>
    const terminal: Failure
    /** The composed asynchronous read in flight, if any. */
    var pending: Option<RA.Pending>
    /** Everything callers were told, in order. */
    var log: seq<RA.Answer>
    ghost var consumed: seq<byte>
    ghost const source: seq<byte>

    ghost function Model(): RA.State
      reads this
    {
      RA.State(consumed, buffer, chunks, terminal, pending, log)
    }

    /** Consumed, buffered and undelivered bytes make up the connection's bytes. */
    ghost predicate Valid()
      reads this
    {
      Model().All() == source
    }

    constructor (chunks: seq<seq<byte>>, terminal: Failure)
      ensures Valid() && source == Flatten(chunks)
      ensures Model() == RA.State([], [], chunks, terminal, None, [])
    {
      this.buffer, this.chunks, this.terminal := [], chunks, terminal;
      this.pending, this.log := None, [];
      this.consumed, this.source := [], Flatten(chunks);
    }

    // ---------- transport

    /** `read_some`: the next chunk, or the terminal error once there are no more. */
    method TransportReadSome() returns (count: nat, ec: ErrorCode)
      modifies `buffer, `chunks
      ensures old(chunks) == [] ==> Model() == old(Model()) && count == 0 && ec == terminal
      ensures old(chunks) != [] ==> Model() == RA.FetchOne(old(Model())) && count == |old(chunks)[0]| && ec == Success
    {
      if chunks == [] {
        return 0, terminal;
      }
      count, ec := |chunks[0]|, Success;
      buffer, chunks := buffer + chunks[0], chunks[1..];
    }

    /** The composed read: `read_some` until at least `n` bytes were transferred or an error occurred. */
    method ReadAtLeast(n: nat) returns (total: nat, ec: ErrorCode)
      requires Valid()
      modifies `buffer, `chunks
      ensures Valid()
      ensures (Model(), ec, total) == RA.ReadAtLeast(old(Model()), n)
    {
      total, ec := 0, Success;
      while ec == Success && total < n
        invariant Valid()
        invariant consumed == old(consumed) && pending == old(pending) && log == old(log)
        invariant
          var all := RA.ReadAtLeast(old(Model()), n);
          if ec == Success then
            var rest := RA.ReadAtLeast(Model(), if total < n then n - total else 0);
            all == (rest.0, rest.1, total + rest.2)
          else all == (Model(), ec, total)
        decreases |chunks|, ec == Success
      {
        ghost var before := Model();
        RA.StepConservesBytes(before.(pending := Some(RA.Pending(1, 0, false))), RA.TurnEv);
        if chunks != [] {
          RA.ReadAtLeastUnfolds(before, n - total);
        } else {
          assert RA.ReadAtLeast(before, n - total) == (before, terminal, 0) by {
            assert buffer + Flatten([]) == buffer;
          }
        }
        var count;
        count, ec := TransportReadSome();
        total := total + count;
      }
      if ec == Success {
        assert RA.ReadAtLeast(Model(), 0) == (Model(), Success, 0) by {
          assert buffer + Flatten([]) == buffer;
        }
      }
    }

    /** One turn of the event loop for an outstanding read. */
    method OnTransportReady()
      requires Valid() && pending.Some?
      modifies this
      ensures Valid() && Model() == RA.Turn(old(Model()))
    {
      RA.StepConservesBytes(Model(), RA.TurnEv);
      var p := pending.value;
      var count, ec := TransportReadSome();
      if ec != Success || p.got + count >= p.need {
        pending := None;
        log := log + [if p.some then RA.ReadSomeDone(ec, p.got + count) else RA.ReadDone(ec)];
      } else {
        pending := Some(p.(got := p.got + count));
      }
    }

    /** `io_context::run` as far as this stream is concerned. */
    method RunEventLoop()
      requires Valid()
      modifies this
      ensures Valid() && Model() == RA.Drain(old(Model()))
    {
      while pending.Some?
        invariant Valid() && RA.Drain(Model()) == RA.Drain(old(Model()))
        decreases |chunks|, pending.Some?
      {
        OnTransportReady();
      }
    }

    // ---------- the interface

    method Size() returns (size: nat)
      ensures size == |buffer|
    {
      size := |buffer|;
    }

    /** Takes what was asked for from the front, or everything if more was asked for than is there. */
    method Consume(size: nat)
      requires Valid()
      modifies `buffer, `consumed
      ensures Valid() && Model() == RA.Step(old(Model()), RA.ConsumeEv(size))
      ensures |buffer| == if size <= |old(buffer)| then |old(buffer)| - size else 0
      ensures buffer == old(buffer)[|old(buffer)| - |buffer|..] && consumed + buffer == old(consumed) + old(buffer)
    {
      var k := Min(size, |buffer|);
      consumed := consumed + buffer[..k];
      buffer := buffer[k..];
    }

    method CopyDataAndConsume(dest: array<byte>, size: nat)
      requires Valid() && size <= |buffer| && size <= dest.Length
      modifies dest, `buffer, `consumed
      ensures dest[..] == old(buffer[..size]) + old(dest[size..])
      ensures Valid() && Model() == RA.Step(old(Model()), RA.CopyAndConsumeEv(size))
      ensures buffer == old(buffer[size..]) && consumed == old(consumed) + dest[..size]
    {
      forall i | 0 <= i < size {
        dest[i] := buffer[i];
      }
      assert dest[..] == buffer[..size] + old(dest[size..]);
      Consume(size);
    }

    method Read(size: nat) returns (ec: ErrorCode)
      requires Valid() && pending.None?
      modifies this
      ensures Valid() && Model() == RA.Step(old(Model()), RA.ReadEv(size)) && ec == RA.Read(old(Model()), size).1
      ensures ec == Success <==> |old(Model()).Rest()| >= size
      ensures ec == Success ==> |buffer| >= size
    {
      RA.ReadSucceedsIffEnough(Model(), size);
      var remainingData := |buffer|;
      if remainingData >= size {
        ec := Success;
      } else {
        var _, e := ReadAtLeast(size - remainingData);
        ec := e;
      }
      log := log + [RA.ReadDone(ec)];
    }

    method ReadSome() returns (count: nat, ec: ErrorCode)
      requires Valid() && pending.None?
      modifies this
      ensures Valid() && Model() == RA.Step(old(Model()), RA.ReadSomeEv)
      ensures ec == Success <==> |old(Model()).Rest()| > 0
      ensures ec == Success ==> count == |buffer| >= 1
      ensures ec != Success ==> ec == terminal && count == 0 && buffer == []
    {
      RA.ReadSomeReportsWholeBuffer(Model());
      if |buffer| > 0 {
        count, ec := |buffer|, Success;
      } else {
        count, ec := ReadAtLeast(1);
      }
      log := log + [RA.ReadSomeDone(ec, count)];
    }

    method AsyncReadAtLeast(size: nat, some: bool)
      requires Valid() && pending.None?
      modifies `pending
      ensures Valid() && Model() == RA.AsyncReadAtLeast(old(Model()), size, some)
    {
      pending := Some(RA.Pending(size, 0, some));
    }

    /** The callback of this call only takes note of the error code. */
    method AsyncRead(size: nat)
      requires Valid() && pending.None?
      modifies this
      ensures Valid() && Model() == RA.Step(old(Model()), RA.AsyncReadEv(size))
    {
      var remainingData := |buffer|;
      if remainingData >= size {
        log := log + [RA.ReadDone(Success)];
      } else {
        AsyncReadAtLeast(size - remainingData, false);
      }
    }

    method AsyncReadSome()
      requires Valid() && pending.None?
      modifies this
      ensures Valid() && Model() == RA.Step(old(Model()), RA.AsyncReadSomeEv)
    {
      var remainingData := |buffer|;
      if remainingData > 0 {
        log := log + [RA.ReadSomeDone(Success, remainingData)];
      } else {
        AsyncReadAtLeast(1, true);
      }
    }

    /** `asyncRead` with a callback that consumes what was asked for and asks for the next part. Each callback
        made because the data is already there runs inside the one before, so the requests must at some
        point (`bound`) ask for more than is buffered; NestingEndsIff shows that this is exactly when the
        nesting ends. */
    method AsyncReadAndContinue(sizes: nat -> nat, i: nat, ghost bound: nat) returns (depth: nat)
      requires Valid() && pending.None? && Sum(sizes, i, bound) > |buffer|
      modifies this
      ensures Valid() && (Model(), depth) == Nest(old(Model()), sizes, i, bound)
      decreases bound
    {
      ghost var before := Model();
      AsyncRead(sizes(i));
      depth := 0;
      if pending.None? {
        Consume(sizes(i));
        assert Model() == Serve(before, sizes(i));
        depth := AsyncReadAndContinue(sizes, i + 1, bound - 1);
        depth := depth + 1;
      }
    }

    /** Requests of equal size nest size / n callbacks and wait with size % n bytes in the buffer. */
    method AsyncReadEqualParts(n: nat) returns (depth: nat)
      requires Valid() && pending.None? && n >= 1
      modifies this
      ensures Valid()
      ensures depth == |old(buffer)| / n && |buffer| == |old(buffer)| % n
      ensures pending == Some(RA.Pending(n - |buffer|, 0, false))
    {
      var sizes: nat -> nat := _ => n;
      PositiveRequestsBound(sizes, 0, |buffer| + 1);
      EqualRequestsDepth(Model(), sizes, n, |buffer| + 1);
      depth := AsyncReadAndContinue(sizes, 0, |buffer| + 1);
    }
  }
}
