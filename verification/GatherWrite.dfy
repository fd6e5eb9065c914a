/** Writing a vector of buffers through a transport that takes the bytes in portions. */
module GatherWrite {
  import opened Common
  import opened Bytes

  /** What successive `write_some` calls do: take up to n bytes, or fail. */
  datatype WriteEvent = Accept(n: nat) | Fail(ec: Failure)

  datatype Written = Written(count: nat, ec: ErrorCode, schedule: seq<WriteEvent>)

  /** The composed write of one flat buffer: `write_some` until everything is out or an error occurs.
      A transport whose schedule has run out reports `terminal`. */
  function WriteFlat(data: seq<byte>, schedule: seq<WriteEvent>, terminal: Failure): (w: Written)
    ensures w.count <= |data|
    decreases |schedule|
  {
    if data == [] then Written(0, Success, schedule)
    else if schedule == [] then Written(0, terminal, [])
    else match schedule[0]
      case Fail(ec) => Written(0, ec, schedule[1..])
      case Accept(n) =>
        var k := Min(n, |data|);
        var w := WriteFlat(data[k..], schedule[1..], terminal);
        w.(count := k + w.count)
  }

  /** The result of a write that has already put out `done` bytes and goes on with `data`. */
  function Resumed(data: seq<byte>, schedule: seq<WriteEvent>, terminal: Failure, done: nat): Written {
    var w := WriteFlat(data, schedule, terminal);
    w.(count := done + w.count)
  }

  /** The write succeeds exactly when all the data went out. */
  lemma {:induction false} SuccessMeansAllWritten(data: seq<byte>, schedule: seq<WriteEvent>, terminal: Failure)
    ensures var w := WriteFlat(data, schedule, terminal);
      w.ec == Success <==> w.count == |data|
    decreases |schedule|
  {
    if data != [] && schedule != [] && schedule[0].Accept? {
      SuccessMeansAllWritten(data[Min(schedule[0].n, |data|)..], schedule[1..], terminal);
    }
  }

  // ---------- the outcome, from the schedule alone

  /** How many `write_some` calls take bytes before the first that fails. */
  function Willing(schedule: seq<WriteEvent>): (m: nat)
    ensures m <= |schedule|
    ensures forall j | 0 <= j < m :: schedule[j].Accept?
    ensures m < |schedule| ==> schedule[m].Fail?
  {
    if schedule == [] || schedule[0].Fail? then 0 else 1 + Willing(schedule[1..])
  }

  /** The bytes that the first j calls are willing to take. */
  function Taken(schedule: seq<WriteEvent>, j: nat): nat
    requires j <= |schedule|
  {
    if j == 0 then 0 else (if schedule[0].Accept? then schedule[0].n else 0) + Taken(schedule[1..], j - 1)
  }

  lemma {:induction false} FailureIsTheSchedules(data: seq<byte>, schedule: seq<WriteEvent>, terminal: Failure)
    ensures var w, m := WriteFlat(data, schedule, terminal), Willing(schedule);
      && (w.ec == Success <==> Taken(schedule, m) >= |data|)
      && (w.ec != Success ==>
            && w.count == Taken(schedule, m)
            && w.ec == (if m < |schedule| then schedule[m].ec else terminal)
            && w.schedule == if m < |schedule| then schedule[m + 1..] else [])
    decreases |schedule|
  {
    if data != [] && schedule != [] && schedule[0].Accept? {
      FailureIsTheSchedules(data[Min(schedule[0].n, |data|)..], schedule[1..], terminal);
    }
  }

  lemma {:induction false} SuccessUsesFewestCalls(data: seq<byte>, schedule: seq<WriteEvent>, terminal: Failure)
    requires WriteFlat(data, schedule, terminal).ec == Success
    ensures var w := WriteFlat(data, schedule, terminal);
      var calls := |schedule| - |w.schedule|;
      && w.count == |data| && 0 <= calls <= Willing(schedule) && w.schedule == schedule[calls..]
      && Taken(schedule, calls) >= |data| && forall j: nat | j < calls :: Taken(schedule, j) < |data|
    decreases |schedule|
  {
    if data != [] {
      var rest, tail := data[Min(schedule[0].n, |data|)..], schedule[1..];
      SuccessUsesFewestCalls(rest, tail, terminal);
      var calls := |schedule| - |WriteFlat(data, schedule, terminal).schedule|;
      assert tail[calls - 1..] == schedule[calls..];
      forall j: nat | j < calls ensures Taken(schedule, j) < |data| {
        if j > 0 {
          assert Taken(tail, j - 1) < |rest|;
        }
      }
    }
  }

  /** A write succeeds if and only if the calls before the first failure take as many bytes as there are, and makes
      no more calls than that needs. Otherwise all those calls were made, the count is what they took, and the error
      code is that of the failing call. */
  lemma WriteOutcome(data: seq<byte>, schedule: seq<WriteEvent>, terminal: Failure)
    ensures var w, m := WriteFlat(data, schedule, terminal), Willing(schedule);
      && (w.ec == Success <==> Taken(schedule, m) >= |data|)
      && (w.ec != Success ==>
            && w.count == Taken(schedule, m)
            && w.ec == (if m < |schedule| then schedule[m].ec else terminal)
            && w.schedule == if m < |schedule| then schedule[m + 1..] else [])
      && (w.ec == Success ==>
            var calls := |schedule| - |w.schedule|;
            && w.count == |data| && 0 <= calls <= m && w.schedule == schedule[calls..]
            && Taken(schedule, calls) >= |data| && forall j: nat | j < calls :: Taken(schedule, j) < |data|)
  {
    FailureIsTheSchedules(data, schedule, terminal);
    if WriteFlat(data, schedule, terminal).ec == Success {
      SuccessUsesFewestCalls(data, schedule, terminal);
    }
  }

  /** How many calls before the first failure take at least one byte. */
  function Positives(schedule: seq<WriteEvent>): nat {
    if schedule == [] || schedule[0].Fail? then 0
    else (if schedule[0].n > 0 then 1 else 0) + Positives(schedule[1..])
  }

  /** A write goes on through any number of partial writes: as many positive ones as there are bytes are enough,
      however few bytes each takes, and it leaves the rest of them to later writes. */
  lemma {:induction false} WriteGoesOn(data: seq<byte>, schedule: seq<WriteEvent>, terminal: Failure)
    requires Positives(schedule) >= |data|
    ensures var w := WriteFlat(data, schedule, terminal);
      w.ec == Success && w.count == |data| && Positives(w.schedule) >= Positives(schedule) - |data|
    decreases |schedule|
  {
    if data != [] {
      WriteGoesOn(data[Min(schedule[0].n, |data|)..], schedule[1..], terminal);
    }
  }

  /** The vector without the first k bytes of its first part. */
  function Trim(todo: seq<seq<byte>>, k: nat): seq<seq<byte>>
    requires todo != [] && k <= |todo[0]|
  {
    if k == |todo[0]| then todo[1..] else [todo[0][k..]] + todo[1..]
  }

  lemma TrimTakesFront(todo: seq<seq<byte>>, k: nat)
    requires todo != [] && k <= |todo[0]|
    ensures Flatten(todo) == todo[0][..k] + Flatten(Trim(todo, k))
  {
    var here, tail := todo[0], Flatten(todo[1..]);
    assert here == here[..k] + here[k..];
    if k < |here| {
      assert ([here[k..]] + todo[1..])[1..] == todo[1..];
      assert here[..k] + (here[k..] + tail) == here + tail;
    } else {
      assert here[..k] == here;
    }
  }

  /** Sending the first k bytes of what is left keeps what has been and will be sent together. */
  lemma AdvanceBy(sent: seq<byte>, rest: seq<byte>, front: seq<byte>, tail: seq<byte>, left: nat)
    requires rest == front + tail && |front| <= left <= |rest|
    ensures sent + rest[..left] == sent + front + tail[..left - |front|]
    ensures rest[left..] == tail[left - |front|..]
  {
    assert rest[..left] == front + tail[..left - |front|];
  }

  lemma SplitStays(sent: seq<byte>, rest: seq<byte>, k: nat)
    requires k <= |rest|
    ensures sent + rest[..k] + rest[k..] == sent + rest
  {
  }

  lemma PrefixSent(before: seq<byte>, data: seq<byte>, sent: seq<byte>, rest: seq<byte>, count: nat)
    requires sent + rest == before + data && count + |rest| == |data|
    ensures sent == before + data[..count]
  {
    assert sent == (sent + rest)[..|before| + count];
    assert (before + data)[..|before| + count] == before + data[..count];
  }

  class Wire {
    /** All bytes handed to the transport. */
    var sent: seq<byte>
    var schedule: seq<WriteEvent>
    const terminal: Failure

    constructor (schedule: seq<WriteEvent>, terminal: Failure)
      ensures this.sent == [] && this.schedule == schedule && this.terminal == terminal
    {
      sent, this.schedule, this.terminal := [], schedule, terminal;
    }

    /** Hands over the first `count` bytes of the vector and returns what is left of it. */
    method Send(parts: seq<seq<byte>>, count: nat) returns (todo: seq<seq<byte>>)
      requires count <= |Flatten(parts)|
      modifies `sent
      ensures sent == old(sent) + Flatten(parts)[..count]
      ensures Flatten(todo) == Flatten(parts)[count..]
    {
      todo := parts;
      var left := count;
      while left > 0
        invariant 0 <= left <= |Flatten(todo)|
        invariant sent + Flatten(todo)[..left] == old(sent) + Flatten(parts)[..count]
        invariant Flatten(todo)[left..] == Flatten(parts)[count..]
        decreases left, |todo|
      {
        var k := Min(left, |todo[0]|);
        TrimTakesFront(todo, k);
        AdvanceBy(sent, Flatten(todo), todo[0][..k], Flatten(Trim(todo, k)), left);
        sent := sent + todo[0][..k];
        todo := Trim(todo, k);
        left := left - k;
      }
    }

    /** One `write_some` call. */
    method WriteSome(parts: seq<seq<byte>>) returns (todo: seq<seq<byte>>, count: nat, ec: ErrorCode)
      requires Flatten(parts) != []
      modifies this
      ensures var data := Flatten(parts);
        && count <= |data| && Flatten(todo) == data[count..]
        && sent == old(sent) + data[..count]
        && WriteFlat(data, old(schedule), terminal) ==
           (if ec == Success then Resumed(data[count..], schedule, terminal, count) else Written(0, ec, schedule))
      ensures |schedule| <= |old(schedule)| && (ec == Success ==> |schedule| < |old(schedule)|)
      ensures ec != Success ==> count == 0
    {
      todo, count := parts, 0;
      assert sent + [] == sent;
      if schedule == [] {
        ec := terminal;
        return;
      }
      var event := schedule[0];
      schedule := schedule[1..];
      match event
      case Fail(e) => ec := e;
      case Accept(n) =>
        ec, count := Success, Min(n, |Flatten(parts)|);
        todo := Send(parts, count);
    }

    /** Gathering write: the bytes of all parts in order, exactly as if they had been one buffer, until all are out or
        a call fails. */
    method WriteVector(parts: seq<seq<byte>>) returns (count: nat, ec: ErrorCode)
      modifies this
      ensures Written(count, ec, schedule) == WriteFlat(Flatten(parts), old(schedule), terminal)
      ensures sent == old(sent) + Flatten(parts)[..count]
      ensures ec == Success <==> count == |Flatten(parts)|
      ensures ec == Success <==> Taken(old(schedule), Willing(old(schedule))) >= |Flatten(parts)|
      ensures ec != Success ==> count == Taken(old(schedule), Willing(old(schedule)))
    {
      ghost var goal := WriteFlat(Flatten(parts), schedule, terminal);
      SuccessMeansAllWritten(Flatten(parts), schedule, terminal);
      WriteOutcome(Flatten(parts), schedule, terminal);
      var todo := parts;
      count, ec := 0, Success;
      while Flatten(todo) != [] && ec == Success
        invariant sent + Flatten(todo) == old(sent) + Flatten(parts)
        invariant count + |Flatten(todo)| == |Flatten(parts)|
        invariant goal ==
          if ec == Success then Resumed(Flatten(todo), schedule, terminal, count) else Written(count, ec, schedule)
        decreases |schedule|, ec == Success
      {
        ghost var before, rest := sent, Flatten(todo);
        var k;
        todo, k, ec := WriteSome(todo);
        count := count + k;
        SplitStays(before, rest, k);
      }
      PrefixSent(old(sent), Flatten(parts), sent, Flatten(todo), count);
    }

    /** Plain write of one buffer. */
    method Write(data: seq<byte>) returns (count: nat, ec: ErrorCode)
      modifies this
      ensures Written(count, ec, schedule) == WriteFlat(data, old(schedule), terminal)
      ensures sent == old(sent) + data[..count]
      ensures ec == Success <==> count == |data|
      ensures ec == Success <==> Taken(old(schedule), Willing(old(schedule))) >= |data|
      ensures ec != Success ==> count == Taken(old(schedule), Willing(old(schedule)))
    {
      assert Flatten([data]) == data;
      count, ec := WriteVector([data]);
    }
  }
}
