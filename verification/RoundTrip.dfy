/** From the buffers one side writes to the byte strings the other side reads. */
module RoundTrip {
  import opened Common
  import opened Bytes
  import opened GatherWrite
  import RA = ReadAhead

  /** Everything a list of gathering writes is meant to put on the wire. */
  function Payload(messages: seq<seq<seq<byte>>>): seq<byte> {
    if messages == [] then [] else Flatten(messages[0]) + Payload(messages[1..])
  }

  /** The bytes that go out when the messages are written one after the other until a write fails,
      and the error code of the last write. */
  function Transmit(messages: seq<seq<seq<byte>>>, schedule: seq<WriteEvent>, terminal: Failure): (seq<byte>, ErrorCode)
    decreases |messages|
  {
    if messages == [] then ([], Success)
    else
      var data := Flatten(messages[0]);
      var w := WriteFlat(data, schedule, terminal);
      if w.ec != Success then (data[..w.count], w.ec)
      else
        var r := Transmit(messages[1..], w.schedule, terminal);
        (data[..w.count] + r.0, r.1)
  }

  /** The wire always carries a prefix of the payload, and all of it when no write failed. */
  lemma {:induction false} TransmitSendsPrefix(messages: seq<seq<seq<byte>>>, schedule: seq<WriteEvent>, terminal: Failure)
    ensures var t := Transmit(messages, schedule, terminal);
      && t.0 <= Payload(messages)
      && (t.1 == Success ==> t.0 == Payload(messages))
    decreases |messages|
  {
    if messages != [] {
      var data := Flatten(messages[0]);
      SuccessMeansAllWritten(data, schedule, terminal);
      TransmitSendsPrefix(messages[1..], WriteFlat(data, schedule, terminal).schedule, terminal);
    }
  }

  /** A session fails only by the first failing call of the transport, and not as long as the calls before it take
      a byte each for every byte of the payload. */
  lemma {:induction false} TransmitGoesOn(messages: seq<seq<seq<byte>>>, schedule: seq<WriteEvent>, terminal: Failure)
    ensures var t, m := Transmit(messages, schedule, terminal), Willing(schedule);
      && (Positives(schedule) >= |Payload(messages)| ==> t.1 == Success && t.0 == Payload(messages))
      && (t.1 != Success ==> t.1 == if m < |schedule| then schedule[m].ec else terminal)
    decreases |messages|
  {
    if messages != [] {
      var data := Flatten(messages[0]);
      var w := WriteFlat(data, schedule, terminal);
      WriteOutcome(data, schedule, terminal);
      TransmitGoesOn(messages[1..], w.schedule, terminal);
      if w.ec == Success {
        WillingAfter(schedule, |schedule| - |w.schedule|);
      }
      if Positives(schedule) >= |Payload(messages)| {
        WriteGoesOn(data, schedule, terminal);
      }
    }
  }

  lemma {:induction false} WillingAfter(schedule: seq<WriteEvent>, k: nat)
    requires k <= Willing(schedule)
    ensures Willing(schedule[k..]) == Willing(schedule) - k
    decreases k
  {
    if k > 0 {
      WillingAfter(schedule[1..], k - 1);
      assert schedule[1..][k - 1..] == schedule[k..];
    }
  }

  /** The session that has already sent `before` and goes on with `messages`. */
  function Continue(before: seq<byte>, messages: seq<seq<seq<byte>>>, schedule: seq<WriteEvent>, terminal: Failure)
    : (seq<byte>, ErrorCode)
  {
    var t := Transmit(messages, schedule, terminal);
    (before + t.0, t.1)
  }

  lemma ContinueUnfolds(before: seq<byte>, messages: seq<seq<seq<byte>>>, schedule: seq<WriteEvent>, terminal: Failure)
    requires messages != []
    ensures var w := WriteFlat(Flatten(messages[0]), schedule, terminal);
      var sent := before + Flatten(messages[0])[..w.count];
      Continue(before, messages, schedule, terminal) ==
        if w.ec == Success then Continue(sent, messages[1..], w.schedule, terminal) else (sent, w.ec)
  {
    var w := WriteFlat(Flatten(messages[0]), schedule, terminal);
    if w.ec == Success {
      var r := Transmit(messages[1..], w.schedule, terminal);
      assert before + (Flatten(messages[0])[..w.count] + r.0) == before + Flatten(messages[0])[..w.count] + r.0;
    }
  }

  /** The same session on a connection object. */
  method WriteMessages(wire: Wire, messages: seq<seq<seq<byte>>>) returns (ec: ErrorCode)
    modifies wire
    ensures (wire.sent, ec) == Continue(old(wire.sent), messages, old(wire.schedule), wire.terminal)
  {
    ec := Success;
    var rest := messages;
    while rest != [] && ec == Success
      invariant Continue(old(wire.sent), messages, old(wire.schedule), wire.terminal) ==
        if ec == Success then Continue(wire.sent, rest, wire.schedule, wire.terminal) else (wire.sent, ec)
      decreases |rest|
    {
      ContinueUnfolds(wire.sent, rest, wire.schedule, wire.terminal);
      var _, e := wire.WriteVector(rest[0]);
      rest, ec := rest[1..], e;
    }
    assert wire.sent + [] == wire.sent;
  }

  // ---------- the reader

  function Total(sizes: seq<nat>): nat { if sizes == [] then 0 else sizes[0] + Total(sizes[1..]) }

  /** A client that reads the given sizes one after the other, taking what it asked for. */
  function Reader(sizes: seq<nat>, async: seq<bool>): RA.Client
    requires |async| == |sizes|
  {
    (seen: seq<RA.Outcome>) =>
      if |seen| < |sizes| then RA.Exactly(sizes[|seen|], sizes[|seen|], async[|seen|]) else RA.Exactly(0, 0, false)
  }

  /** The bytes of all answers, one after the other. */
  function Received(answers: seq<RA.Outcome>): seq<byte> {
    if answers == [] then [] else answers[0].bytes + Received(answers[1..])
  }

  /** Every read succeeded with as many bytes as it asked for. */
  predicate Sized(answers: seq<RA.Outcome>, sizes: seq<nat>) {
    && |answers| == |sizes|
    && forall i | 0 <= i < |answers| :: answers[i].ec == Success && |answers[i].bytes| == sizes[i]
  }

  lemma {:induction false} PlainReader(rest: seq<byte>, terminal: Failure, sizes: seq<nat>, async: seq<bool>,
                                       answers: seq<RA.Outcome>, i: nat, left: seq<byte>)
    requires i <= |async| == |sizes| == |answers| && Total(sizes[i..]) <= |rest|
    requires RA.PlainRun(rest, terminal, Reader(sizes, async), answers, i, left)
    ensures var n := Total(sizes[i..]);
      Sized(answers[i..], sizes[i..]) && Received(answers[i..]) == rest[..n] && left == rest[n..]
    decreases |answers| - i
  {
    if i < |answers| {
      var size, tail := sizes[i], sizes[i + 1..];
      assert sizes[i..] == [size] + tail && answers[i..] == [answers[i]] + answers[i + 1..];
      PlainReader(rest[size..], terminal, sizes, async, answers, i + 1, left);
      assert rest[..size] + rest[size..][..Total(tail)] == rest[..size + Total(tail)];
    }
  }

  /** A connection nothing has been read from yet. */
  function Fresh(chunks: seq<seq<byte>>, terminal: Failure): RA.Idle {
    RA.State([], [], chunks, terminal, None, [])
  }

  /** What was written is what is read: for any messages, any schedule of partial writes, any cutting of the
      bytes on the wire into chunks, and any sizes that do not ask for more than is on the wire, every read
      succeeds with exactly its size, and together they are the beginning of the payload. */
  lemma WriterToReader(messages: seq<seq<seq<byte>>>, schedule: seq<WriteEvent>, broken: Failure,
                       chunks: seq<seq<byte>>, terminal: Failure, sizes: seq<nat>, async: seq<bool>)
    requires Flatten(chunks) == Transmit(messages, schedule, broken).0
    requires |async| == |sizes| && Total(sizes) <= |Flatten(chunks)|
    ensures var p := RA.Play(RA.Ask, Fresh(chunks, terminal), Reader(sizes, async), |sizes|, []);
      && Sized(p.1, sizes)
      && Total(sizes) <= |Payload(messages)| && Received(p.1) == Payload(messages)[..Total(sizes)]
      && p.0.consumed == Received(p.1)
  {
    var s := Fresh(chunks, terminal);
    assert s.Rest() == Flatten(chunks) && s.All() == Flatten(chunks);
    RA.BufferRefinesPlainStream(s, Reader(sizes, async), |sizes|);
    var p := RA.Play(RA.Ask, s, Reader(sizes, async), |sizes|, []);
    var n := Total(sizes);
    assert sizes[0..] == sizes && p.1[0..] == p.1;
    PlainReader(Flatten(chunks), terminal, sizes, async, p.1, 0, p.0.Rest());
    TransmitSendsPrefix(messages, schedule, broken);
    ConsumedIsPrefix(p.0.consumed, Flatten(chunks), n);
    assert Flatten(chunks)[..n] == Payload(messages)[..n];
  }

  lemma ConsumedIsPrefix(consumed: seq<byte>, all: seq<byte>, n: nat)
    requires n <= |all| && consumed + all[n..] == all
    ensures consumed == all[..n]
  {
    assert |consumed| == n;
    assert consumed == (consumed + all[n..])[..n];
  }
}
