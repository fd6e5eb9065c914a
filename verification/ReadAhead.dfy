/** The read-ahead buffer of `Stream` as a state machine over values.

    A transport is the list of the byte strings that its successive `read_some` calls will
    return, followed by a terminal error that every later call reports. Entries may be empty.
    The class in StreamObject.dfy is proved to make exactly the steps defined here. */
module ReadAhead {
  import opened Common
  import opened Bytes

  /** What a caller was told: `read` and `asyncRead` report an error code only. */
  datatype Answer = ReadDone(ec: ErrorCode) | ReadSomeDone(ec: ErrorCode, count: nat)

  /** An asynchronous read in flight: bytes asked of the transport, bytes received so far. */
  datatype Pending = Pending(need: nat, got: nat, some: bool)

  datatype State = State(consumed: seq<byte>, buffer: seq<byte>, chunks: seq<seq<byte>>, terminal: Failure,
                         pending: Option<Pending>, log: seq<Answer>)
  {
    /** The bytes not yet consumed, wherever they are. */
    function Rest(): seq<byte> { buffer + Flatten(chunks) }

    /** All bytes of the connection. */
    function All(): seq<byte> { consumed + Rest() }
  }

  // ---------- fetching from the transport

  /** How many `read_some` calls a read of at least `n` bytes makes before it is satisfied or runs dry. */
  function ChunksNeeded(chunks: seq<seq<byte>>, n: nat): (k: nat)
    ensures k <= |chunks|
  {
    if n == 0 || chunks == [] then 0
    else 1 + ChunksNeeded(chunks[1..], if |chunks[0]| >= n then 0 else n - |chunks[0]|)
  }

  /** The chunks taken are the shortest prefix of the list that holds `n` bytes, or the whole list
      when there is no such prefix. */
  lemma {:induction false} ChunksNeededIsLeast(chunks: seq<seq<byte>>, n: nat)
    ensures var k := ChunksNeeded(chunks, n);
      && (|Flatten(chunks[..k])| >= n <==> |Flatten(chunks)| >= n)
      && (|Flatten(chunks)| < n ==> k == |chunks|)
      && forall j: nat | j < k :: |Flatten(chunks[..j])| < n
  {
    var k := ChunksNeeded(chunks, n);
    if n == 0 || chunks == [] {
      assert chunks[..k] == [];
    } else {
      var m := if |chunks[0]| >= n then 0 else n - |chunks[0]|;
      ChunksNeededIsLeast(chunks[1..], m);
      assert chunks[..k][1..] == chunks[1..][..k - 1];
      forall j: nat | j < k ensures |Flatten(chunks[..j])| < n {
        if j > 0 {
          assert chunks[..j][1..] == chunks[1..][..j - 1];
          assert |Flatten(chunks[1..][..j - 1])| < m;
        }
      }
    }
  }

  function ReadAtLeast(s: State, n: nat): (State, ErrorCode, nat) {
    var k := ChunksNeeded(s.chunks, n);
    var got := Flatten(s.chunks[..k]);
    (s.(buffer := s.buffer + got, chunks := s.chunks[k..]),
     if |got| >= n then Success else s.terminal,
     |got|)
  }

  // ---------- the synchronous operations

  function Read(s: State, n: nat): (State, ErrorCode) {
    if |s.buffer| >= n then (s, Success)
    else var r := ReadAtLeast(s, n - |s.buffer|); (r.0, r.1)
  }

  function ReadSome(s: State): (State, ErrorCode, nat) {
    if |s.buffer| > 0 then (s, Success, |s.buffer|) else ReadAtLeast(s, 1)
  }

  function Consume(s: State, n: nat): State {
    var k := Min(n, |s.buffer|);
    s.(consumed := s.consumed + s.buffer[..k], buffer := s.buffer[k..])
  }

  // ---------- the asynchronous operations

  function Answered(s: State, a: Answer): State { s.(log := s.log + [a]) }

  function AsyncReadAtLeast(s: State, n: nat, some: bool): State {
    s.(pending := Some(Pending(n, 0, some)))
  }

  function AsyncRead(s: State, n: nat): State {
    if |s.buffer| >= n then Answered(s, ReadDone(Success))
    else AsyncReadAtLeast(s, n - |s.buffer|, false)
  }

  function AsyncReadSome(s: State): State {
    if |s.buffer| > 0 then Answered(s, ReadSomeDone(Success, |s.buffer|))
    else AsyncReadAtLeast(s, 1, true)
  }

  function Finish(s: State, p: Pending, ec: ErrorCode, count: nat): State {
    Answered(s.(pending := None), if p.some then ReadSomeDone(ec, count) else ReadDone(ec))
  }

  function FetchOne(s: State): State
    requires s.chunks != []
  {
    s.(buffer := s.buffer + s.chunks[0], chunks := s.chunks[1..])
  }

  /** One turn of the event loop: the outstanding read receives the next `read_some` result. */
  function Turn(s: State): State
    requires s.pending.Some?
  {
    var p := s.pending.value;
    if s.chunks == [] then Finish(s, p, s.terminal, p.got)
    else
      var t := FetchOne(s);
      var got := p.got + |s.chunks[0]|;
      if got >= p.need then Finish(t, p, Success, got) else t.(pending := Some(p.(got := got)))
  }

  /** The event loop run until no read is outstanding. */
  function Drain(s: State): (r: State)
    ensures r.pending.None?
    ensures |r.log| == |s.log| + (if s.pending.Some? then 1 else 0)
    decreases |s.chunks|, s.pending.Some?
  {
    if s.pending.None? then s else Drain(Turn(s))
  }

  // ---------- runs

  datatype Event =
    | ReadEv(n: nat) | ReadSomeEv | AsyncReadEv(n: nat) | AsyncReadSomeEv
    | TurnEv | ConsumeEv(n: nat) | CopyAndConsumeEv(n: nat)

  /** Reads do not overlap, and `copyDataAndConsume` is not asked for more than is there. */
  predicate Enabled(s: State, e: Event) {
    match e
    case TurnEv => s.pending.Some?
    case ConsumeEv(_) => true
    case CopyAndConsumeEv(n) => n <= |s.buffer|
    case _ => s.pending.None?
  }

  function Step(s: State, e: Event): State
    requires Enabled(s, e)
  {
    match e
    case ReadEv(n) => var r := Read(s, n); Answered(r.0, ReadDone(r.1))
    case ReadSomeEv => var r := ReadSome(s); Answered(r.0, ReadSomeDone(r.1, r.2))
    case AsyncReadEv(n) => AsyncRead(s, n)
    case AsyncReadSomeEv => AsyncReadSome(s)
    case TurnEv => Turn(s)
    case ConsumeEv(n) => Consume(s, n)
    case CopyAndConsumeEv(n) => Consume(s, n)
  }

  predicate ValidRun(s: State, events: seq<Event>)
    decreases |events|
  {
    events == [] || (Enabled(s, events[0]) && ValidRun(Step(s, events[0]), events[1..]))
  }

  function Run(s: State, events: seq<Event>): State
    requires ValidRun(s, events)
    decreases |events|
  {
    if events == [] then s else Run(Step(s, events[0]), events[1..])
  }

  lemma ReadAtLeastKeepsRest(s: State, n: nat)
    ensures ReadAtLeast(s, n).0.Rest() == s.Rest()
  {
    FlattenSplit(s.chunks, ChunksNeeded(s.chunks, n));
  }

  lemma TurnConservesBytes(s: State)
    requires s.pending.Some?
    ensures Turn(s).All() == s.All() && Turn(s).consumed == s.consumed
  {
    FlattenSplit(s.chunks, if s.chunks == [] then 0 else 1);
  }

  lemma ConsumeConservesBytes(s: State, n: nat)
    ensures Consume(s, n).All() == s.All() && s.consumed <= Consume(s, n).consumed
  {
    var k := Min(n, |s.buffer|);
    assert s.buffer == s.buffer[..k] + s.buffer[k..];
  }

  lemma StepConservesBytes(s: State, e: Event)
    requires Enabled(s, e)
    ensures Step(s, e).All() == s.All()
    ensures Step(s, e).terminal == s.terminal
    ensures s.consumed <= Step(s, e).consumed
  {
    match e
    case ReadEv(n) => if |s.buffer| < n { ReadAtLeastKeepsRest(s, n - |s.buffer|); }
    case ReadSomeEv => ReadAtLeastKeepsRest(s, 1);
    case TurnEv => TurnConservesBytes(s);
    case ConsumeEv(n) => ConsumeConservesBytes(s, n);
    case CopyAndConsumeEv(n) => ConsumeConservesBytes(s, n);
    case _ =>
  }

  /** Whatever is called in whatever order, and whatever fails, no byte is lost, invented or moved. */
  lemma {:induction false} RunConservesBytes(s: State, events: seq<Event>)
    requires ValidRun(s, events)
    ensures Run(s, events).All() == s.All()
    ensures s.consumed <= Run(s, events).consumed
    decreases |events|
  {
    if events != [] {
      StepConservesBytes(s, events[0]);
      RunConservesBytes(Step(s, events[0]), events[1..]);
    }
  }

  // ---------- what a read promises

  /** `read(n)` succeeds exactly when n bytes are left on the connection; then they are in the buffer.
      Otherwise it reports the terminal error, and all that was left is in the buffer. */
  lemma ReadSucceedsIffEnough(s: State, n: nat)
    ensures var r := Read(s, n);
      && r.0.Rest() == s.Rest()
      && (r.1 == Success <==> |s.Rest()| >= n)
      && (r.1 == Success ==> |r.0.buffer| >= n)
      && (r.1 != Success ==> r.1 == s.terminal && r.0.buffer == s.Rest() && r.0.chunks == [])
  {
    if |s.buffer| < n {
      var m: nat := n - |s.buffer|;
      ReadAtLeastKeepsRest(s, m);
      ChunksNeededIsLeast(s.chunks, m);
      assert Flatten(s.chunks[|s.chunks|..]) == [];
      assert s.chunks[..|s.chunks|] == s.chunks;
    }
  }

  /** `readSome` reports the whole buffer, at least one byte, or an error, a count of zero and an empty buffer;
      it fails exactly when nothing is left, however many empty chunks come first. */
  lemma ReadSomeReportsWholeBuffer(s: State)
    ensures var r := ReadSome(s);
      && (r.1 == Success <==> |s.Rest()| > 0)
      && (r.1 == Success ==> r.2 == |r.0.buffer| >= 1)
      && (r.1 != Success ==> r.1 == s.terminal && r.2 == 0 && r.0.buffer == [])
      && r.0.Rest() == s.Rest()
  {
    ChunksNeededIsLeast(s.chunks, 1);
    ReadAtLeastKeepsRest(s, 1);
    assert s.chunks[..|s.chunks|] == s.chunks;
  }

  /** `consume` takes what was asked for from the front, or everything if more was asked for than is there. */
  lemma ConsumeTakesWhatIsThere(s: State, n: nat)
    ensures var t := Consume(s, n);
      && |t.buffer| == (if n <= |s.buffer| then |s.buffer| - n else 0)
      && t.buffer == s.buffer[|s.buffer| - |t.buffer|..]
      && t.consumed == s.consumed + s.buffer[..|s.buffer| - |t.buffer|]
      && t.chunks == s.chunks && t.pending == s.pending && t.log == s.log
  {
  }

  /** A read leaves the transport alone when the buffer holds enough; otherwise it takes the shortest prefix of the
      chunks after which the buffer does, and no more. */
  lemma ReadFetchesWhatIsMissing(s: State, n: nat)
    ensures var t := Read(s, n).0;
      var k := |s.chunks| - |t.chunks|;
      && 0 <= k && t.chunks == s.chunks[k..] && t.buffer == s.buffer + Flatten(s.chunks[..k])
      && t.consumed == s.consumed
      && (forall j: nat | j < k :: |s.buffer| + |Flatten(s.chunks[..j])| < n)
  {
    if |s.buffer| < n {
      ChunksNeededIsLeast(s.chunks, n - |s.buffer|);
    } else {
      assert s.buffer + Flatten(s.chunks[..0]) == s.buffer;
    }
  }

  /** The same for `readSome`: with an empty buffer it takes the chunks up to the first that is not empty. */
  lemma ReadSomeFetchesWhatIsMissing(s: State)
    ensures var t := ReadSome(s).0;
      var k := |s.chunks| - |t.chunks|;
      && 0 <= k && t.chunks == s.chunks[k..] && t.buffer == s.buffer + Flatten(s.chunks[..k])
      && t.consumed == s.consumed
      && (k > 0 ==> s.buffer == []) && (forall j: nat | j < k :: Flatten(s.chunks[..j]) == [])
  {
    if s.buffer == [] {
      ChunksNeededIsLeast(s.chunks, 1);
    } else {
      assert s.buffer + Flatten(s.chunks[..0]) == s.buffer;
    }
  }

  /** What the caller is told of a read, synchronous or not: one answer, success exactly if the bytes were left, and
      for `readSome` the number of bytes that are then in the buffer. */
  lemma ReadsTellWhatHappened(s: State, e: Event, async: bool)
    requires s.pending.None? && IsRead(e)
    ensures var t := if async then Drain(Step(s, AsyncForm(e))) else Step(s, e);
      && t.pending.None? && |t.log| == |s.log| + 1 && t.log[..|s.log|] == s.log
      && var told := t.log[|s.log|];
         match e
         case ReadEv(n) => told == ReadDone(if |s.Rest()| >= n then Success else s.terminal)
         case ReadSomeEv => told == if |s.Rest()| > 0 then ReadSomeDone(Success, |t.buffer|) else ReadSomeDone(s.terminal, 0)
  {
    AsyncReadAgrees(s, e);
    ReadSomeReportsWholeBuffer(s);
    if e.ReadEv? {
      ReadSucceedsIffEnough(s, e.n);
    }
  }

  // ---------- synchronous and asynchronous reads agree

  lemma ReadAtLeastUnfolds(s: State, n: nat)
    requires n > 0 && s.chunks != []
    ensures var r := ReadAtLeast(FetchOne(s), if |s.chunks[0]| >= n then 0 else n - |s.chunks[0]|);
      ReadAtLeast(s, n) == (r.0, r.1, |s.chunks[0]| + r.2)
  {
    var k := ChunksNeeded(s.chunks, n);
    assert s.chunks[..k][1..] == s.chunks[1..][..k - 1];
    assert s.chunks[k..] == s.chunks[1..][k - 1..];
    var tail := Flatten(s.chunks[1..][..k - 1]);
    assert s.buffer + (s.chunks[0] + tail) == s.buffer + s.chunks[0] + tail;
  }

  /** The last turn of a read: the transport has run dry, or the chunk suffices. */
  lemma LastTurn(s: State)
    requires s.pending.Some? && s.pending.value.got < s.pending.value.need && Turn(s).pending.None?
    ensures var p := s.pending.value;
      var r := ReadAtLeast(s, p.need - p.got);
      Turn(s) == Finish(r.0, p, r.1, p.got + r.2)
  {
    var p := s.pending.value;
    if s.chunks == [] {
      assert s.buffer + Flatten([]) == s.buffer;
    } else {
      ReadAtLeastUnfolds(s, p.need - p.got);
      var f := FetchOne(s);
      assert ChunksNeeded(f.chunks, 0) == 0 && f.buffer + Flatten([]) == f.buffer;
    }
  }

  lemma {:induction false} DrainIsReadAtLeast(s: State)
    requires s.pending.Some? && s.pending.value.got < s.pending.value.need
    ensures var p := s.pending.value;
      var r := ReadAtLeast(s, p.need - p.got);
      Drain(s) == Finish(r.0, p, r.1, p.got + r.2)
    decreases |s.chunks|
  {
    var t := Turn(s);
    if t.pending.None? {
      LastTurn(s);
      assert Drain(t) == t;
    } else {
      ReadAtLeastUnfolds(s, s.pending.value.need - s.pending.value.got);
      DrainIsReadAtLeast(t);
    }
  }

  predicate IsRead(e: Event) { e.ReadEv? || e.ReadSomeEv? }

  function AsyncForm(e: Event): Event
    requires IsRead(e)
  {
    match e case ReadEv(n) => AsyncReadEv(n) case ReadSomeEv => AsyncReadSomeEv
  }

  /** An asynchronous read run to completion leaves the same buffer, transport, error code and count
      as the synchronous call. */
  lemma AsyncReadAgrees(s: State, e: Event)
    requires s.pending.None? && IsRead(e)
    ensures Drain(Step(s, AsyncForm(e))) == Step(s, e)
  {
    var started := Step(s, AsyncForm(e));
    if started.pending.Some? {
      DrainIsReadAtLeast(started);
    }
  }

  /** A list of calls: synchronous reads, `consume` and `copyDataAndConsume`. */
  predicate IsCall(e: Event) { IsRead(e) || e.ConsumeEv? || e.CopyAndConsumeEv? }

  /** The same calls with every read made asynchronously and the event loop run until it has completed. */
  function RunAsync(s: State, calls: seq<Event>): State
    requires s.pending.None?
    requires forall e | e in calls :: IsCall(e)
    decreases |calls|
  {
    if calls == [] then s
    else
      var e := calls[0];
      assert e in calls && IsCall(e);
      RunAsync(if IsRead(e) then Drain(Step(s, AsyncForm(e))) else Consume(s, e.n), calls[1..])
  }

  lemma {:induction false} AsyncRunAgrees(s: State, calls: seq<Event>)
    requires s.pending.None? && ValidRun(s, calls)
    requires forall e | e in calls :: IsCall(e)
    ensures RunAsync(s, calls) == Run(s, calls)
    decreases |calls|
  {
    if calls != [] {
      assert IsCall(calls[0]);
      if IsRead(calls[0]) {
        AsyncReadAgrees(s, calls[0]);
      }
      AsyncRunAgrees(Step(s, calls[0]), calls[1..]);
    }
  }

  // ---------- the buffer refines an unbuffered byte stream

  /** One request of a client: a read, synchronous or not, of a number of bytes or of some; then look at what
      that read made available, and consume up to `take` bytes of it. */
  datatype Request = Exactly(size: nat, take: nat, async: bool) | Some_(take: nat, async: bool)

  /** The error code, and the bytes the client may look at: what it asked for if that came, what `readSome`
      counted, and after a failed read all that is in the buffer. */
  datatype Outcome = Outcome(ec: ErrorCode, bytes: seq<byte>)

  /** A client decides each request from all it has seen so far. */
  type Client = seq<Outcome> -> Request

  function ReadFor(r: Request): Event {
    match r case Exactly(size, _, _) => ReadEv(size) case Some_(_, _) => ReadSomeEv
  }

  /** What the client sees when its read has been answered. */
  function Shown(t: State, r: Request): Outcome
    requires t.log != []
  {
    var ec := t.log[|t.log| - 1].ec;
    Outcome(ec, if ec == Success && r.Exactly? then t.buffer[..Min(r.size, |t.buffer|)] else t.buffer)
  }

  /** A stream without an outstanding read. */
  type Idle = s: State | s.pending.None? witness State([], [], [], OperationAborted, None, [])

  function Ask(s: Idle, r: Request): (Idle, Outcome) {
    var t := if r.async then Drain(Step(s, AsyncForm(ReadFor(r)))) else Step(s, ReadFor(r));
    var a := Shown(t, r);
    (Consume(t, Min(r.take, |a.bytes|)), a)
  }

  /** A game of so many rounds between a client and a stream that answers with `ask`. */
  function Play(ask: (Idle, Request) -> (Idle, Outcome), s: Idle, client: Client, rounds: nat, seen: seq<Outcome>)
    : (Idle, seq<Outcome>)
    decreases rounds
  {
    if rounds == 0 then (s, seen)
    else
      var r := ask(s, client(seen));
      Play(ask, r.0, client, rounds - 1, seen + [r.1])
  }

  /** The reference: one byte string, no buffer, no chunks, no event loop. A read of n bytes gets the next n, or
      the error with all that is left; `readSome` gets some bytes, if any are left. */
  predicate PlainAnswer(rest: seq<byte>, terminal: Failure, r: Request, a: Outcome) {
    match r
    case Exactly(size, _, _) => a == if |rest| >= size then Outcome(Success, rest[..size]) else Outcome(terminal, rest)
    case Some_(_, _) =>
      if rest == [] then a == Outcome(terminal, []) else a.ec == Success && a.bytes != [] && a.bytes <= rest
  }

  /** From number i on, the answers are those of the byte string to this client, and `left` is what remains. */
  predicate PlainRun(rest: seq<byte>, terminal: Failure, client: Client, answers: seq<Outcome>, i: nat, left: seq<byte>)
    requires i <= |answers|
    decreases |answers| - i
  {
    if i == |answers| then left == rest
    else
      var r, a := client(answers[..i]), answers[i];
      && PlainAnswer(rest, terminal, r, a) && |a.bytes| <= |rest|
      && PlainRun(rest[Min(r.take, |a.bytes|)..], terminal, client, answers, i + 1, left)
  }

  lemma ExactReadShowsPlain(s: State, r: Request)
    requires s.pending.None? && r.Exactly?
    ensures var t := Step(s, ReadEv(r.size));
      PlainAnswer(s.Rest(), s.terminal, r, Shown(t, r)) && Shown(t, r).bytes <= t.buffer
  {
    ReadSucceedsIffEnough(s, r.size);
    var t := Step(s, ReadEv(r.size));
    if Read(s, r.size).1 == Success {
      assert t.buffer[..r.size] == t.Rest()[..r.size];
    }
  }

  lemma SomeReadShowsPlain(s: State, r: Request)
    requires s.pending.None? && r.Some_?
    ensures var t := Step(s, ReadSomeEv);
      PlainAnswer(s.Rest(), s.terminal, r, Shown(t, r)) && Shown(t, r).bytes <= t.buffer
  {
    ReadSomeReportsWholeBuffer(s);
    assert Step(s, ReadSomeEv).buffer <= Step(s, ReadSomeEv).Rest();
  }

  lemma ConsumeDrops(t: State, k: nat)
    requires k <= |t.buffer|
    ensures Consume(t, k).Rest() == t.Rest()[k..]
  {
  }

  /** The answer is the byte string's, and takes from it what the client took. */
  ghost predicate RefinesPlain(s: Idle, r: Request, t: Idle, a: Outcome) {
    && PlainAnswer(s.Rest(), s.terminal, r, a)
    && |a.bytes| <= |s.Rest()| && t.Rest() == s.Rest()[Min(r.take, |a.bytes|)..]
    && t.terminal == s.terminal && t.All() == s.All()
  }

  lemma AskRefinesPlain(s: Idle, r: Request)
    ensures RefinesPlain(s, r, Ask(s, r).0, Ask(s, r).1)
  {
    var e := ReadFor(r);
    AsyncReadAgrees(s, e);
    var t := Step(s, e);
    if r.Exactly? {
      ExactReadShowsPlain(s, r);
      ReadSucceedsIffEnough(s, r.size);
    } else {
      SomeReadShowsPlain(s, r);
      ReadSomeReportsWholeBuffer(s);
    }
    var k := Min(r.take, |Shown(t, r).bytes|);
    StepConservesBytes(s, e);
    StepConservesBytes(t, ConsumeEv(k));
    ConsumeDrops(t, k);
  }

  lemma PrefixOfPrefix(all: seq<Outcome>, seen: seq<Outcome>, a: Outcome)
    requires |seen| < |all| && all[..|seen| + 1] == seen + [a]
    ensures all[..|seen|] == seen && all[|seen|] == a
  {
    assert all[..|seen|] == all[..|seen| + 1][..|seen|];
    assert all[|seen|] == all[..|seen| + 1][|seen|];
  }

  /** What a game of `rounds` more rounds ends in. */
  ghost predicate GameRefinesPlain(s: Idle, client: Client, rounds: nat, seen: seq<Outcome>, t: Idle, answers: seq<Outcome>) {
    && |answers| == |seen| + rounds && answers[..|seen|] == seen
    && PlainRun(s.Rest(), s.terminal, client, answers, |seen|, t.Rest())
    && t.terminal == s.terminal && t.All() == s.All()
  }

  lemma {:induction false} PlayRefinesPlain(ask: (Idle, Request) -> (Idle, Outcome), s: Idle, client: Client, rounds: nat,
                                            seen: seq<Outcome>)
    requires forall u: Idle, r: Request :: RefinesPlain(u, r, ask(u, r).0, ask(u, r).1)
    ensures var (t, answers) := Play(ask, s, client, rounds, seen); GameRefinesPlain(s, client, rounds, seen, t, answers)
    decreases rounds
  {
    if rounds > 0 {
      var r := ask(s, client(seen));
      PlayRefinesPlain(ask, r.0, client, rounds - 1, seen + [r.1]);
      var (t, answers) := Play(ask, s, client, rounds, seen);
      PrefixOfPrefix(answers, seen, r.1);
      assert RefinesPlain(s, client(seen), r.0, r.1);
    } else {
      assert seen[..|seen|] == seen;
    }
  }

  /** No client, however it chooses its requests and whether it reads synchronously or not, can tell the
      read-ahead stream from the plain byte string it carries. */
  lemma BufferRefinesPlainStream(s: Idle, client: Client, rounds: nat)
    ensures var (t, answers) := Play(Ask, s, client, rounds, []);
      && |answers| == rounds && PlainRun(s.Rest(), s.terminal, client, answers, 0, t.Rest())
      && t.All() == s.All()
  {
    forall u: Idle, r: Request ensures RefinesPlain(u, r, Ask(u, r).0, Ask(u, r).1) {
      AskRefinesPlain(u, r);
    }
    PlayRefinesPlain(Ask, s, client, rounds, []);
  }

  /** A client that never uses `readSome`. */
  ghost predicate AsksForNumbers(client: Client) { forall past :: client(past).Exactly? }

  lemma ExactAnswerIsUnique(rest: seq<byte>, terminal: Failure, client: Client, i: nat, xs: seq<Outcome>, ys: seq<Outcome>)
    requires AsksForNumbers(client) && i < |xs| == |ys| && xs[..i] == ys[..i]
    requires PlainAnswer(rest, terminal, client(xs[..i]), xs[i]) && PlainAnswer(rest, terminal, client(ys[..i]), ys[i])
    ensures xs[i] == ys[i] && xs[..i + 1] == ys[..i + 1]
  {
    assert xs[..i + 1] == xs[..i] + [xs[i]] && ys[..i + 1] == ys[..i] + [ys[i]];
  }

  lemma {:induction false} PlainIsDeterministic(rest: seq<byte>, terminal: Failure, client: Client, i: nat,
      xs: seq<Outcome>, xLeft: seq<byte>, ys: seq<Outcome>, yLeft: seq<byte>)
    requires AsksForNumbers(client) && i <= |xs| == |ys| && xs[..i] == ys[..i]
    requires PlainRun(rest, terminal, client, xs, i, xLeft) && PlainRun(rest, terminal, client, ys, i, yLeft)
    ensures xs == ys && xLeft == yLeft
    decreases |xs| - i
  {
    if i == |xs| {
      assert xs == xs[..i] && ys == ys[..i];
    } else {
      ExactAnswerIsUnique(rest, terminal, client, i, xs, ys);
      var next := rest[Min(client(xs[..i]).take, |xs[i].bytes|)..];
      PlainIsDeterministic(next, terminal, client, i + 1, xs, xLeft, ys, yLeft);
    }
  }

  /** Two connections that carry the same bytes and end alike, but cut the bytes differently, buffered
      differently so far, give every client that asks for numbers of bytes the same answers. */
  lemma ChunkingIsInvisible(s: Idle, t: Idle, client: Client, rounds: nat)
    requires s.Rest() == t.Rest() && s.terminal == t.terminal && AsksForNumbers(client)
    ensures Play(Ask, s, client, rounds, []).1 == Play(Ask, t, client, rounds, []).1
    ensures Play(Ask, s, client, rounds, []).0.Rest() == Play(Ask, t, client, rounds, []).0.Rest()
  {
    BufferRefinesPlainStream(s, client, rounds);
    BufferRefinesPlainStream(t, client, rounds);
    var (u, xs) := Play(Ask, s, client, rounds, []);
    var (v, ys) := Play(Ask, t, client, rounds, []);
    PlainIsDeterministic(s.Rest(), s.terminal, client, 0, xs, u.Rest(), ys, v.Rest());
  }

  /** What a client may look at is the limit: `size()` after a read, and with it the count of the next
      `readSome`, shows how the bytes were cut. */
  lemma SizeShowsChunks(x: byte, y: byte, terminal: Failure)
    ensures var s := State([], [], [[x], [y]], terminal, None, []);
      var t := s.(chunks := [[x, y]]);
      && s.Rest() == t.Rest() == [x, y]
      && |Step(s, ReadEv(1)).buffer| == 1 && |Step(t, ReadEv(1)).buffer| == 2
  {
    var s := State([], [], [[x], [y]], terminal, None, []);
    var t := s.(chunks := [[x, y]]);
    assert s.chunks[1..] == [[y]] && [[y]][1..] == [] && Flatten([[y]]) == [y] + Flatten([]);
    assert t.chunks[1..] == [] && Flatten(t.chunks) == [x, y] + Flatten([]);
    assert ChunksNeeded(s.chunks, 1) == 1 && s.chunks[..1] == [[x]] && Flatten([[x]]) == [x] + Flatten([[x]][1..]);
    assert ChunksNeeded(t.chunks, 1) == 1 && t.chunks[..1] == [[x, y]];
  }
}
