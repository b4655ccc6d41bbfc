/** The output path of a connection (RN/net/TcpConnection.cpp): sends, partial and failed writes,
write-complete callbacks that send again, half-close and the close and destroy handlers.

`ConnectionSpec` gives the effect of every handler on the connection's state together with a log of
what the program asked for and what reached the socket; `ConnectionRuns` proves what every run keeps;
`Connections` is the class that the handlers of the source correspond to.
*/
module ConnectionSpec {
  import opened Bytes
  import opened Numbers
  import opened Storage

  const HIGH_WATER_MARK: nat := 64 * 1024 * 1024

  datatype Phase = Connecting | Connected | Disconnecting | Disconnected

  /** The answer of one `::write`: an error, or as many of the offered bytes as `most` allows. */
  datatype WriteResult = Failed | Accepts(most: nat)

  /** What user code does to its connection inside a callback.  `result` is the socket's answer
      should the call reach `::write`; `onComplete` is what the write-complete callback then does. */
  datatype Call =
    | Send(msg: seq<Byte>, result: WriteResult, onComplete: seq<Call>)
    | Shutdown

  /** What the loop thread runs on a connection.  A send or shutdown made by another thread arrives
      in two parts; the second part is a functor that no longer looks at the state. */
  datatype Event =
    | Establish(onUp: seq<Call>)
    | Message(onMessage: seq<Call>)
    | WriteReady(result: WriteResult, onComplete: seq<Call>)
    | ForeignSend(msg: seq<Byte>, result: WriteResult, onComplete: seq<Call>)
    | ForeignShutdown
    | QueuedShutdown
    | Close
    | Destroy(onDown: seq<Call>)

  /** A call of user code is noted with whether the channel asked for write readiness at that moment. */
  datatype Note =
    | Given(bytes: seq<Byte>)  // entered sendInLoop
    | Wrote(bytes: seq<Byte>)  // accepted by ::write
    | Completed                // the write-complete callback was called
    | SendCalled(writing: bool)
    | ShutdownCalled(writing: bool)
    | ShutDown                 // shutdown() took effect
    | HalfClosed               // shutdownWrite was issued
    | HighWater(total: nat)    // the high-water callback was queued
    | Up
    | Closed
    | Down

  datatype Conn = Conn(phase: Phase, reading: bool, writing: bool, out: Store, log: seq<Note>)

  function NewConn(): Conn {
    Conn(Connecting, false, false, Fresh(), [])
  }

  function Record(c: Conn, n: Note): Conn {
    c.(log := c.log + [n])
  }

  /** What is left of a message is buffered, and the channel asks for write readiness. */
  function Keep(to: CopyTo, c: Conn, rest: seq<Byte>): Conn {
    if rest == [] then c
    else
      var already := |Readable(c.out)|;
      var c1 := if already < HIGH_WATER_MARK && already + |rest| >= HIGH_WATER_MARK
                then Record(c, HighWater(already + |rest|)) else c;
      c1.(out := Appended(to, c.out, rest), writing := true)
  }

  function SendInLoop(to: CopyTo, c: Conn, msg: seq<Byte>, result: WriteResult, onComplete: seq<Call>): Conn
    decreases onComplete, 1
  {
    var c1 := Record(c, Given(msg));
    if !c.writing && Readable(c.out) == [] && result.Accepts? then
      var n := Min(result.most, |msg|);
      var c2 := Record(c1, Wrote(msg[..n]));
      if n < |msg| then Keep(to, c2, msg[n..]) else Calls(to, Record(c2, Completed), onComplete)
    else
      Keep(to, c1, msg)
  }

  function ShutdownInLoop(c: Conn): Conn {
    if !c.writing then Record(c, HalfClosed) else c
  }

  /** The part of `shutdown()` that runs in the calling thread. */
  function AskShutdown(c: Conn): Conn {
    var c1 := Record(c, ShutdownCalled(c.writing));
    if c.phase == Connected then Record(c1.(phase := Disconnecting), ShutDown) else c1
  }

  function ShutdownCall(c: Conn): Conn {
    if c.phase == Connected then ShutdownInLoop(AskShutdown(c)) else AskShutdown(c)
  }

  /** A callback's calls, one after the other. */
  function Calls(to: CopyTo, c: Conn, calls: seq<Call>): Conn
    decreases calls, 0
  {
    if calls == [] then c else Calls(to, OneCall(to, c, calls[0]), calls[1..])
  }

  function OneCall(to: CopyTo, c: Conn, call: Call): Conn
    decreases call, 0
  {
    match call
    case Send(msg, result, onComplete) =>
      var c1 := Record(c, SendCalled(c.writing));
      if c.phase == Connected then SendInLoop(to, c1, msg, result, onComplete) else c1
    case Shutdown => ShutdownCall(c)
  }

  /** The notes of calls made one after the other while the channel stays as it is. */
  function CallNotes(writing: bool, calls: seq<Call>): seq<Note> {
    if calls == [] then []
    else [if calls[0].Send? then SendCalled(writing) else ShutdownCalled(writing)] + CallNotes(writing, calls[1..])
  }

  function HandleWrite(to: CopyTo, c: Conn, result: WriteResult, onComplete: seq<Call>): Conn {
    if !c.writing || result.Failed? || Min(result.most, |Readable(c.out)|) == 0 then c
    else
      var n := Min(result.most, |Readable(c.out)|);
      var c1 := Record(c.(out := Retrieved(c.out, n)), Wrote(Readable(c.out)[..n]));
      if Readable(c1.out) != [] then c1
      else
        var c2 := Calls(to, Record(c1.(writing := false), Completed), onComplete);
        if c2.phase == Disconnecting then ShutdownInLoop(c2) else c2
  }

  /** The source's `assert(state_ = kConnected)` assigns. */
  function HandleClose(c: Conn): Conn {
    Record(c.(phase := Connected, reading := false, writing := false), Closed)
  }

  /** The assertions at the head of the handlers. */
  predicate Asserted(c: Conn, e: Event) {
    (e.Establish? ==> c.phase == Connecting) && (e.Destroy? ==> c.phase == Connected)
  }

  function Handle(to: CopyTo, c: Conn, e: Event): Conn
    requires Asserted(c, e)
  {
    match e
    case Establish(onUp) => Calls(to, Record(c.(phase := Connected, reading := true), Up), onUp)
    case Message(onMessage) => Calls(to, c, onMessage)
    case WriteReady(result, onComplete) => HandleWrite(to, c, result, onComplete)
    case ForeignSend(msg, result, onComplete) => SendInLoop(to, c, msg, result, onComplete)
    case ForeignShutdown => AskShutdown(c)
    case QueuedShutdown => ShutdownInLoop(c)
    case Close => HandleClose(c)
    case Destroy(onDown) =>
      Calls(to, Record(c.(phase := Disconnected, reading := false, writing := false), Down), onDown)
  }
}

module ConnectionRuns {
  import opened Bytes
  import opened Numbers
  import opened Sequences
  import opened Storage
  import opened ConnectionSpec

  function GivenBytes(log: seq<Note>): seq<Byte> {
    if log == [] then [] else GivenBytes(Init(log)) + (if Last(log).Given? then Last(log).bytes else [])
  }

  function WroteBytes(log: seq<Note>): seq<Byte> {
    if log == [] then [] else WroteBytes(Init(log)) + (if Last(log).Wrote? then Last(log).bytes else [])
  }

  /** Bytes given but not yet written. */
  function Waiting(log: seq<Note>): int {
    |GivenBytes(log)| - |WroteBytes(log)|
  }

  /** No message was given while earlier bytes were still waiting in the buffer. */
  ghost predicate NeverBacklogged(log: seq<Note>) {
    log != [] ==>
      && NeverBacklogged(Init(log))
      && (Last(log).Given? && Last(log).bytes != [] ==> |GivenBytes(Init(log))| <= |WroteBytes(Init(log))|)
  }

  /** The runs whose byte stream must be intact: all of them when `append` copies to the writer,
      those without a backlog when it copies to the reader, as written. */
  ghost predicate Clean(to: CopyTo, log: seq<Note>) {
    to == Writer || NeverBacklogged(log)
  }

  predicate Ended(log: seq<Note>) {
    Closed in log || Down in log
  }

  /** The last thing that happened is a write after which nothing waits any more. */
  predicate CompletionDue(log: seq<Note>) {
    log != [] && Last(log).Wrote? && Waiting(log) == 0
  }

  /** The connection ended with bytes waiting, and no message has been given since: the channel was
      told to stop writing and nothing has made it start again. */
  predicate Stalled(log: seq<Note>) {
    log != [] &&
    match Last(log)
    case Closed => Waiting(log) > 0
    case Down => Waiting(log) > 0
    case Given(bytes) => bytes == [] && Stalled(Init(log))
    case _ => Stalled(Init(log))
  }

  predicate IsCall(n: Note) {
    n.SendCalled? || n.ShutdownCalled?
  }

  /** What `log` allows to be noted next: the write-complete callback exactly after a write that left
      nothing waiting; at a call the channel is writing exactly while bytes wait that did not stall; the
      write side is shut on unwritten bytes exactly when they stalled. */
  predicate SoundNote(log: seq<Note>, n: Note) {
    && (n == Completed <==> CompletionDue(log))
    && (IsCall(n) ==> (n.writing <==> Waiting(log) > 0 && !Stalled(log)))
    && (n == HalfClosed ==> (Waiting(log) > 0 <==> Stalled(log)))
  }

  /** At every moment of the log the socket had received a prefix of what had been given. */
  ghost predicate SoundLog(to: CopyTo, log: seq<Note>) {
    && (Clean(to, log) ==> WroteBytes(log) <= GivenBytes(log))
    && (log != [] ==> SoundLog(to, Init(log)) && SoundNote(Init(log), Last(log)))
  }

  lemma {:induction false} StalledEnded(log: seq<Note>)
    requires Stalled(log)
    ensures Ended(log)
    decreases |log|
  {
    if Last(log) != Closed && Last(log) != Down {
      StalledEnded(Init(log));
      assert forall n :: n in Init(log) ==> n in log;
    }
  }

  /** The high-water callback was queued, and ever since at least the mark has been waiting. */
  predicate Warned(log: seq<Note>) {
    log != [] && Waiting(log) >= HIGH_WATER_MARK && (Last(log).HighWater? || Warned(Init(log)))
  }

  /** Every high-water callback tells the bytes waiting, at or over the mark, and is the first one
      since fewer were waiting. */
  predicate SoundWarnings(log: seq<Note>) {
    log != [] ==>
      && SoundWarnings(Init(log))
      && (Last(log).HighWater? ==>
            Last(log).total == Waiting(log) && Waiting(log) >= HIGH_WATER_MARK && !Warned(Init(log)))
  }

  /** What holds at every point outside `sendInLoop` and `handleWrite`, callbacks included. */
  ghost predicate Inv(to: CopyTo, c: Conn) {
    Settled(to, c) && !CompletionDue(c.log)
  }

  ghost predicate Settled(to: CopyTo, c: Conn) {
    && SoundWarnings(c.log)
    && (|Readable(c.out)| >= HIGH_WATER_MARK ==> Warned(c.log))
    && SoundLog(to, c.log)
    && |WroteBytes(c.log)| + |Readable(c.out)| == |GivenBytes(c.log)|
    && (Clean(to, c.log) ==> WroteBytes(c.log) + Readable(c.out) == GivenBytes(c.log))
    && WritesUnlessStalled(c)
  }

  /** The channel asks for write readiness exactly while bytes are buffered that did not stall. */
  predicate WritesUnlessStalled(c: Conn) {
    && (c.writing ==> Readable(c.out) != [])
    && (Stalled(c.log) <==> !c.writing && Readable(c.out) != [])
  }

  /** Between recording a message and disposing of `rest`, its unwritten part. */
  ghost predicate MidSend(to: CopyTo, c: Conn, rest: seq<Byte>) {
    Unbuffered(to, c, rest) && (|Readable(c.out)| >= HIGH_WATER_MARK <==> Warned(c.log))
  }

  ghost predicate Unbuffered(to: CopyTo, c: Conn, rest: seq<Byte>) {
    && !CompletionDue(c.log)
    && SoundWarnings(c.log)
    && SoundLog(to, c.log)
    && |WroteBytes(c.log)| + |Readable(c.out)| + |rest| == |GivenBytes(c.log)|
    && (Clean(to, c.log) ==> WroteBytes(c.log) + Readable(c.out) + rest == GivenBytes(c.log))
    && (Clean(to, c.log) && to == Reader ==> Readable(c.out) == [] || rest == [])
    && (if rest == [] then WritesUnlessStalled(c) else !Stalled(c.log))
  }

  lemma RecordAdds(c: Conn, n: Note)
    ensures var l := Record(c, n).log; Init(l) == c.log && Last(l) == n
  {
  }

  lemma GivenKeeps(to: CopyTo, c: Conn, msg: seq<Byte>)
    requires Inv(to, c)
    ensures MidSend(to, Record(c, Given(msg)), msg)
  {
    hide Unbuffered, Clean;
    GivenUnbuffered(to, c, msg);
    var log := Record(c, Given(msg)).log;
    RecordAdds(c, Given(msg));
    assert Waiting(c.log) == |Readable(c.out)| && Waiting(log) == |Readable(c.out)| + |msg|;
    assert Warned(log) <==> Waiting(log) >= HIGH_WATER_MARK && Warned(c.log);
  }

  lemma GivenUnbuffered(to: CopyTo, c: Conn, msg: seq<Byte>)
    requires Inv(to, c)
    ensures Unbuffered(to, Record(c, Given(msg)), msg)
  {
    hide Warned;
    RecordAdds(c, Given(msg));
    assert WroteBytes(c.log) + Readable(c.out) + msg == (WroteBytes(c.log) + Readable(c.out)) + msg;
  }

  /** An append adds the right number of bytes either way, and the right bytes where the copy is safe. */
  lemma AppendEffect(to: CopyTo, s: Store, rest: seq<Byte>)
    ensures |Readable(Appended(to, s, rest))| == |Readable(s)| + |rest|
    ensures to == Writer || Readable(s) == [] ==> Readable(Appended(to, s, rest)) == Readable(s) + rest
  {
    AppendedReadable(s, rest);
    AsWrittenShape(s, rest);
    EnsureSpaceKeeps(s, |rest|);
    AppendAsWrittenExact(s, |rest|);
  }

  lemma HighWaterKeeps(to: CopyTo, c: Conn, rest: seq<Byte>, total: nat)
    requires MidSend(to, c, rest)
    requires |Readable(c.out)| < HIGH_WATER_MARK <= total == |Readable(c.out)| + |rest|
    ensures Unbuffered(to, Record(c, HighWater(total)), rest) && Warned(Record(c, HighWater(total)).log)
  {
    RecordAdds(c, HighWater(total));
  }

  lemma BufferKeeps(to: CopyTo, c: Conn, rest: seq<Byte>)
    requires Unbuffered(to, c, rest) && rest != []
    requires |Readable(c.out)| + |rest| >= HIGH_WATER_MARK ==> Warned(c.log)
    ensures Inv(to, c.(out := Appended(to, c.out, rest), writing := true))
  {
    hide Appended, SoundLog, SoundWarnings, Clean, Warned;
    AppendEffect(to, c.out, rest);
    assert WroteBytes(c.log) + Readable(c.out) + rest == WroteBytes(c.log) + (Readable(c.out) + rest);
  }

  lemma KeepKeeps(to: CopyTo, c: Conn, rest: seq<Byte>)
    requires MidSend(to, c, rest)
    ensures Inv(to, Keep(to, c, rest))
  {
    hide Appended, SoundLog, SoundWarnings, Clean;
    if rest == [] {
      assert WroteBytes(c.log) + Readable(c.out) + rest == WroteBytes(c.log) + Readable(c.out);
    } else {
      var total := |Readable(c.out)| + |rest|;
      if |Readable(c.out)| < HIGH_WATER_MARK && total >= HIGH_WATER_MARK {
        HighWaterKeeps(to, c, rest, total);
        BufferKeeps(to, Record(c, HighWater(total)), rest);
      } else {
        BufferKeeps(to, c, rest);
      }
    }
  }

  lemma {:induction false} SendKeeps(to: CopyTo, c: Conn, msg: seq<Byte>, result: WriteResult, onComplete: seq<Call>)
    requires Inv(to, c)
    ensures Inv(to, SendInLoop(to, c, msg, result, onComplete))
    decreases onComplete, 1
  {
    GivenKeeps(to, c, msg);
    var c1 := Record(c, Given(msg));
    if !c.writing && Readable(c.out) == [] && result.Accepts? {
      var n := Min(result.most, |msg|);
      var c2 := Record(c1, Wrote(msg[..n]));
      RecordAdds(c1, Wrote(msg[..n]));
      DirectWrite(to, c1, msg, n);
      if n < |msg| {
        KeepKeeps(to, c2, msg[n..]);
      } else {
        CompletedKeeps(to, c2);
        CallsKeep(to, Record(c2, Completed), onComplete);
      }
    } else {
      KeepKeeps(to, c1, msg);
    }
  }

  lemma DirectWrite(to: CopyTo, c: Conn, msg: seq<Byte>, n: nat)
    requires MidSend(to, c, msg) && Readable(c.out) == [] && !c.writing && n <= |msg|
    ensures n < |msg| ==> MidSend(to, Record(c, Wrote(msg[..n])), msg[n..])
    ensures n == |msg| ==> Settled(to, Record(c, Wrote(msg[..n]))) && CompletionDue(Record(c, Wrote(msg[..n])).log)
  {
    RecordAdds(c, Wrote(msg[..n]));
    var w := WroteBytes(c.log);
    assert w + [] + msg == (w + msg[..n]) + [] + msg[n..];
    assert w + msg[..n] + [] == w + msg[..n];
  }

  lemma CompletedKeeps(to: CopyTo, c: Conn)
    requires Settled(to, c) && CompletionDue(c.log)
    ensures Inv(to, Record(c, Completed))
  {
    RecordAdds(c, Completed);
  }

  lemma {:induction false} CallsKeep(to: CopyTo, c: Conn, calls: seq<Call>)
    requires Inv(to, c)
    ensures Inv(to, Calls(to, c, calls))
    decreases calls, 0
  {
    if calls != [] {
      match calls[0] {
        case Send(msg, result, onComplete) =>
          QuietNoteKeeps(to, c, SendCalled(c.writing));
          SendKeeps(to, Record(c, SendCalled(c.writing)), msg, result, onComplete);
        case Shutdown => ShutdownKeeps(to, c);
      }
      CallsKeep(to, OneCall(to, c, calls[0]), calls[1..]);
    }
  }

  lemma ShutdownInLoopKeeps(to: CopyTo, c: Conn)
    requires Inv(to, c)
    ensures Inv(to, ShutdownInLoop(c))
  {
    RecordAdds(c, HalfClosed);
  }

  lemma QuietNoteKeeps(to: CopyTo, c: Conn, n: Note)
    requires Inv(to, c) && (n == ShutDown || n == Up || (IsCall(n) && n.writing == c.writing))
    ensures Inv(to, Record(c, n))
  {
    RecordAdds(c, n);
  }

  lemma EndKeeps(to: CopyTo, c: Conn, phase: Phase, n: Note)
    requires Inv(to, c) && (n == Closed || n == Down)
    ensures Inv(to, Record(c.(phase := phase, reading := false, writing := false), n))
  {
    RecordAdds(c, n);
  }

  lemma ShutdownKeeps(to: CopyTo, c: Conn)
    requires Inv(to, c)
    ensures Inv(to, AskShutdown(c)) && Inv(to, ShutdownCall(c))
  {
    var c1 := Record(c, ShutdownCalled(c.writing));
    QuietNoteKeeps(to, c, ShutdownCalled(c.writing));
    if c.phase == Connected {
      QuietNoteKeeps(to, c1.(phase := Disconnecting), ShutDown);
      ShutdownInLoopKeeps(to, AskShutdown(c));
    }
  }

  lemma WriteKeeps(to: CopyTo, c: Conn, n: nat)
    requires Inv(to, c) && c.writing && 0 < n <= |Readable(c.out)|
    ensures var c1 := Record(c.(out := Retrieved(c.out, n)), Wrote(Readable(c.out)[..n]));
            && Settled(to, c1.(writing := Readable(c1.out) != []))
            && (CompletionDue(c1.log) <==> Readable(c1.out) == [])
  {
    var c0 := c.(out := Retrieved(c.out, n));
    var sent := Readable(c.out)[..n];
    RecordAdds(c0, Wrote(sent));
    var w := WroteBytes(c.log);
    assert Readable(c0.out) == Readable(c.out)[n..];
    assert w + Readable(c.out) == (w + sent) + Readable(c0.out);
  }

  lemma HandleWriteKeeps(to: CopyTo, c: Conn, result: WriteResult, onComplete: seq<Call>)
    requires Inv(to, c)
    ensures Inv(to, HandleWrite(to, c, result, onComplete))
  {
    hide SoundLog, SoundWarnings, Clean, Warned, Calls;
    if c.writing && result.Accepts? && Min(result.most, |Readable(c.out)|) > 0 {
      var n := Min(result.most, |Readable(c.out)|);
      WriteKeeps(to, c, n);
      var c1 := Record(c.(out := Retrieved(c.out, n)), Wrote(Readable(c.out)[..n]));
      if Readable(c1.out) == [] {
        CompletedKeeps(to, c1.(writing := false));
        var c2 := Record(c1.(writing := false), Completed);
        CallsKeep(to, c2, onComplete);
        ShutdownInLoopKeeps(to, Calls(to, c2, onComplete));
      }
    }
  }

  lemma StateKeeps(to: CopyTo, c: Conn, d: Conn)
    requires Inv(to, c) && d.out == c.out && d.log == c.log && d.writing == c.writing
    ensures Inv(to, d)
  {
  }

  lemma HandleKeeps(to: CopyTo, c: Conn, e: Event)
    requires Inv(to, c) && Asserted(c, e)
    ensures Inv(to, Handle(to, c, e))
  {
    hide Inv, Calls, HandleWrite, SendInLoop, ShutdownInLoop, AskShutdown;
    match e
    case Establish(onUp) =>
      StateKeeps(to, c, c.(phase := Connected, reading := true));
      QuietNoteKeeps(to, c.(phase := Connected, reading := true), Up);
      CallsKeep(to, Record(c.(phase := Connected, reading := true), Up), onUp);
    case Message(onMessage) => CallsKeep(to, c, onMessage);
    case WriteReady(result, onComplete) => HandleWriteKeeps(to, c, result, onComplete);
    case ForeignSend(msg, result, onComplete) => SendKeeps(to, c, msg, result, onComplete);
    case ForeignShutdown => ShutdownKeeps(to, c);
    case QueuedShutdown => ShutdownInLoopKeeps(to, c);
    case Close => EndKeeps(to, c, Connected, Closed);
    case Destroy(onDown) =>
      EndKeeps(to, c, Disconnected, Down);
      CallsKeep(to, Record(c.(phase := Disconnected, reading := false, writing := false), Down), onDown);
  }

  // ---------- whole runs ----------

  ghost predicate AssertedRun(to: CopyTo, c: Conn, events: seq<Event>)
    decreases |events|
  {
    events != [] ==> Asserted(c, events[0]) && AssertedRun(to, Handle(to, c, events[0]), events[1..])
  }

  ghost function Run(to: CopyTo, c: Conn, events: seq<Event>): Conn
    requires AssertedRun(to, c, events)
    decreases |events|
  {
    if events == [] then c else Run(to, Handle(to, c, events[0]), events[1..])
  }

  lemma {:induction false} RunKeeps(to: CopyTo, c: Conn, events: seq<Event>)
    requires Inv(to, c) && AssertedRun(to, c, events)
    ensures Inv(to, Run(to, c, events))
    decreases |events|
  {
    if events != [] {
      HandleKeeps(to, c, events[0]);
      RunKeeps(to, Handle(to, c, events[0]), events[1..]);
    }
  }

  lemma {:induction false} SoundAt(to: CopyTo, log: seq<Note>, i: nat)
    requires i <= |log| && SoundLog(to, log)
    ensures Clean(to, log) ==> WroteBytes(log[..i]) <= GivenBytes(log[..i])
    ensures i < |log| ==> SoundNote(log[..i], log[i])
    decreases |log|
  {
    if i == |log| {
      assert log[..i] == log;
    } else {
      assert Init(log)[..i] == log[..i];
      if i + 1 == |log| {
        assert Init(log) == log[..i];
      } else {
        assert Init(log)[i] == log[i];
      }
      SoundAt(to, Init(log), i);
    }
  }

  /** In the run that led to `c`, handling the k-th event began with the notes told from the state before. */
  ghost predicate TookEffect(to: CopyTo, events: seq<Event>, k: nat, c: Conn)
    requires k < |events|
  {
    AssertedRun(to, NewConn(), events[..k]) &&
    var before := Run(to, NewConn(), events[..k]);
    before.log + EventNotes(before, events[k]) <= c.log
  }

  /** Stream integrity: in every run the socket has received, in order and without gaps, what was
      given to `sendInLoop`, and the output buffer holds the rest.  The channel is writing exactly while
      bytes are buffered that did not stall, between the events of the run and at every call that a
      callback makes; the write-complete callback is called exactly after each write that leaves
      nothing waiting; until the connection ends nothing stalls, and the write side is shut only at
      moments when everything given has been written.  And every event took effect: handling it began
      with the notes that `EventNotes` tells from the state before, so a message is given and written, and
      buffered bytes are written when the socket takes some. */
  lemma StreamIntegrity(to: CopyTo, events: seq<Event>)
    requires AssertedRun(to, NewConn(), events)
    requires Clean(to, Run(to, NewConn(), events).log)
    ensures var c := Run(to, NewConn(), events);
            && WroteBytes(c.log) + Readable(c.out) == GivenBytes(c.log)
            && (c.writing <==> Readable(c.out) != [] && !Stalled(c.log))
            && (Stalled(c.log) ==> Ended(c.log))
            && !CompletionDue(c.log)
            && (forall i :: 0 <= i <= |c.log| ==> WroteBytes(c.log[..i]) <= GivenBytes(c.log[..i]))
            && (forall i :: 0 <= i < |c.log| ==> SoundNote(c.log[..i], c.log[i]))
            && (forall i :: 0 <= i < |c.log| && IsCall(c.log[i]) && !Ended(c.log[..i]) ==>
                  (c.log[i].writing <==> WroteBytes(c.log[..i]) != GivenBytes(c.log[..i])))
            && (forall i :: 0 <= i < |c.log| && c.log[i] == HalfClosed && !Ended(c.log[..i]) ==>
                  WroteBytes(c.log[..i]) == GivenBytes(c.log[..i]))
            && (forall k :: 0 <= k < |events| ==> TookEffect(to, events, k, c))
  {
    RunKeeps(to, NewConn(), events);
    var c := Run(to, NewConn(), events);
    forall k | 0 <= k < |events| ensures TookEffect(to, events, k, c) {
      RunBegins(to, NewConn(), events, k);
    }
    if Stalled(c.log) {
      StalledEnded(c.log);
    }
    forall i | 0 <= i <= |c.log|
      ensures WroteBytes(c.log[..i]) <= GivenBytes(c.log[..i])
      ensures i < |c.log| ==> SoundNote(c.log[..i], c.log[i])
      ensures Stalled(c.log[..i]) ==> Ended(c.log[..i])
    {
      SoundAt(to, c.log, i);
      if Stalled(c.log[..i]) {
        StalledEnded(c.log[..i]);
      }
    }
  }

  /** High-water callbacks: each tells the bytes waiting, none is repeated while the backlog lasts,
      and none is missed: with the mark reached, one has been queued since the backlog was below. */
  lemma HighWaterWarnings(to: CopyTo, events: seq<Event>)
    requires AssertedRun(to, NewConn(), events)
    ensures var c := Run(to, NewConn(), events);
            && SoundWarnings(c.log)
            && (|Readable(c.out)| >= HIGH_WATER_MARK <==> Warned(c.log))
  {
    RunKeeps(to, NewConn(), events);
  }

  // ---------- half-close ----------

  /** After `shutdown()` took effect and before a close no message enters `sendInLoop`. */
  ghost predicate Orderly(log: seq<Note>) {
    log != [] ==> Orderly(Init(log)) && (Last(log).Given? && !Ended(log) ==> ShutDown !in Init(log))
  }

  ghost predicate OrderlyConn(c: Conn) {
    && Orderly(c.log)
    && (ShutDown in c.log && !Ended(c.log) ==> c.phase == Disconnecting)
  }

  /** A shutdown is not forgotten: once nothing is left to write, the write side has been shut. */
  ghost predicate Finished(c: Conn) {
    c.phase == Disconnecting && !c.writing && !Ended(c.log) ==> HalfClosed in c.log
  }

  lemma NoteOrderly(c: Conn, n: Note)
    requires OrderlyConn(c)
    requires n.Given? ==> c.phase == Connected
    requires n == ShutDown ==> c.phase == Disconnecting
    ensures OrderlyConn(Record(c, n))
  {
    RecordAdds(c, n);
  }

  lemma {:induction false} SendOrderly(to: CopyTo, c: Conn, msg: seq<Byte>, result: WriteResult, onComplete: seq<Call>)
    requires OrderlyConn(c) && c.phase == Connected
    ensures OrderlyConn(SendInLoop(to, c, msg, result, onComplete))
    decreases onComplete, 1
  {
    var c1 := Record(c, Given(msg));
    NoteOrderly(c, Given(msg));
    if !c.writing && Readable(c.out) == [] && result.Accepts? {
      var n := Min(result.most, |msg|);
      NoteOrderly(c1, Wrote(msg[..n]));
      if n < |msg| {
        KeepOrderly(to, Record(c1, Wrote(msg[..n])), msg[n..]);
      } else {
        NoteOrderly(Record(c1, Wrote(msg[..n])), Completed);
        CallsOrderly(to, Record(Record(c1, Wrote(msg[..n])), Completed), onComplete);
      }
    } else {
      KeepOrderly(to, c1, msg);
    }
  }

  lemma KeepOrderly(to: CopyTo, c: Conn, rest: seq<Byte>)
    requires OrderlyConn(c)
    ensures OrderlyConn(Keep(to, c, rest))
  {
    hide OrderlyConn, Appended;
    var note := HighWater(|Readable(c.out)| + |rest|);
    NoteOrderly(c, note);
    var c1 := if Keep(to, c, rest).log == c.log then c else Record(c, note);
    SamePhaseOrderly(c1, Keep(to, c, rest));
  }

  lemma DisconnectingOrderly(c: Conn)
    requires OrderlyConn(c)
    ensures OrderlyConn(c.(phase := Disconnecting))
  {
  }

  lemma ShutdownOrderly(c: Conn)
    requires OrderlyConn(c)
    ensures OrderlyConn(AskShutdown(c)) && OrderlyConn(ShutdownCall(c)) && OrderlyConn(ShutdownInLoop(c))
  {
    NoteOrderly(c, HalfClosed);
    var c1 := Record(c, ShutdownCalled(c.writing));
    NoteOrderly(c, ShutdownCalled(c.writing));
    if c.phase == Connected {
      DisconnectingOrderly(c1);
      NoteOrderly(c1.(phase := Disconnecting), ShutDown);
      NoteOrderly(AskShutdown(c), HalfClosed);
    }
  }

  lemma {:induction false} CallsOrderly(to: CopyTo, c: Conn, calls: seq<Call>)
    requires OrderlyConn(c)
    ensures OrderlyConn(Calls(to, c, calls))
    decreases calls, 0
  {
    if calls != [] {
      if calls[0].Shutdown? {
        ShutdownOrderly(c);
      } else {
        var c1 := Record(c, SendCalled(c.writing));
        NoteOrderly(c, SendCalled(c.writing));
        if c.phase == Connected {
          SendOrderly(to, c1, calls[0].msg, calls[0].result, calls[0].onComplete);
        }
      }
      CallsOrderly(to, OneCall(to, c, calls[0]), calls[1..]);
    }
  }

  lemma HandleWriteOrderly(to: CopyTo, c: Conn, result: WriteResult, onComplete: seq<Call>)
    requires OrderlyConn(c)
    ensures OrderlyConn(HandleWrite(to, c, result, onComplete))
  {
    hide OrderlyConn;
    if c.writing && result.Accepts? && Min(result.most, |Readable(c.out)|) > 0 {
      var n := Min(result.most, |Readable(c.out)|);
      var c0 := c.(out := Retrieved(c.out, n));
      var c1 := Record(c0, Wrote(Readable(c.out)[..n]));
      SamePhaseOrderly(c, c0);
      NoteOrderly(c0, Wrote(Readable(c.out)[..n]));
      if Readable(c1.out) == [] {
        SamePhaseOrderly(c1, c1.(writing := false));
        NoteOrderly(c1.(writing := false), Completed);
        var c2 := Record(c1.(writing := false), Completed);
        CallsOrderly(to, c2, onComplete);
        ShutdownOrderly(Calls(to, c2, onComplete));
      }
    }
  }

  lemma SamePhaseOrderly(c: Conn, d: Conn)
    requires OrderlyConn(c) && d.log == c.log && d.phase == c.phase
    ensures OrderlyConn(d)
  {
  }

  lemma HandleOrderly(to: CopyTo, c: Conn, e: Event)
    requires OrderlyConn(c) && Asserted(c, e) && !e.ForeignSend?
    ensures OrderlyConn(Handle(to, c, e))
  {
    hide Orderly, Ended, Calls, HandleWrite, SendInLoop, AskShutdown, ShutdownInLoop;
    match e
    case Establish(onUp) =>
      NoteOrderly(c.(phase := Connected, reading := true), Up);
      CallsOrderly(to, Record(c.(phase := Connected, reading := true), Up), onUp);
    case Message(onMessage) => CallsOrderly(to, c, onMessage);
    case WriteReady(result, onComplete) => HandleWriteOrderly(to, c, result, onComplete);
    case ForeignShutdown => ShutdownOrderly(c);
    case QueuedShutdown => ShutdownOrderly(c);
    case Close => EndOrderly(c, Connected, Closed);
    case Destroy(onDown) =>
      EndOrderly(c, Disconnected, Down);
      CallsOrderly(to, Record(c.(phase := Disconnected, reading := false, writing := false), Down), onDown);
    case _ =>
  }

  lemma EndOrderly(c: Conn, phase: Phase, n: Note)
    requires OrderlyConn(c) && (n == Closed || n == Down)
    ensures OrderlyConn(Record(c.(phase := phase, reading := false, writing := false), n))
  {
    RecordAdds(c, n);
  }

  /** Callbacks on a connection that is not connected have no effect but the note of their calls. */
  lemma {:induction false} CallsIgnored(to: CopyTo, c: Conn, calls: seq<Call>)
    requires c.phase != Connected
    ensures Calls(to, c, calls) == c.(log := c.log + CallNotes(c.writing, calls))
    decreases |calls|
  {
    if calls != [] {
      var c1 := Record(c, if calls[0].Send? then SendCalled(c.writing) else ShutdownCalled(c.writing));
      assert OneCall(to, c, calls[0]) == c1;
      CallsIgnored(to, c1, calls[1..]);
      assert c1.log + CallNotes(c.writing, calls[1..]) == c.log + CallNotes(c.writing, calls);
    } else {
      assert c.log + [] == c.log;
    }
  }

  lemma {:induction false} SendFinishes(to: CopyTo, c: Conn, msg: seq<Byte>, result: WriteResult, onComplete: seq<Call>)
    requires Finished(c) && c.phase == Connected
    ensures Finished(SendInLoop(to, c, msg, result, onComplete))
    decreases onComplete, 1
  {
    if !c.writing && Readable(c.out) == [] && result.Accepts? {
      var n := Min(result.most, |msg|);
      CallsFinish(to, Record(Record(Record(c, Given(msg)), Wrote(msg[..n])), Completed), onComplete);
    }
  }

  lemma {:induction false} CallsFinish(to: CopyTo, c: Conn, calls: seq<Call>)
    requires Finished(c)
    ensures Finished(Calls(to, c, calls))
    decreases calls, 0
  {
    if calls != [] {
      if calls[0].Send? && c.phase == Connected {
        var c1 := Record(c, SendCalled(c.writing));
        SendFinishes(to, c1, calls[0].msg, calls[0].result, calls[0].onComplete);
      }
      if calls[0].Shutdown? {
        ShutdownFinishes(c);
      }
      CallsFinish(to, OneCall(to, c, calls[0]), calls[1..]);
    }
  }

  lemma ShutdownFinishes(c: Conn)
    ensures Finished(c) ==> Finished(ShutdownCall(c))
    ensures Finished(ShutdownInLoop(c))
  {
    assert !c.writing ==> Last(ShutdownInLoop(c).log) == HalfClosed;
    assert c.phase == Connected && !c.writing ==> Last(ShutdownCall(c).log) == HalfClosed;
  }

  lemma HandleFinishes(to: CopyTo, c: Conn, e: Event)
    requires Finished(c) && Asserted(c, e) && InLoopThread(e)
    ensures Finished(Handle(to, c, e))
  {
    match e
    case Establish(onUp) => CallsFinish(to, Record(c.(phase := Connected, reading := true), Up), onUp);
    case Message(onMessage) => CallsFinish(to, c, onMessage);
    case WriteReady(result, onComplete) => HandleWriteFinishes(to, c, result, onComplete);
    case Close =>
    case Destroy(onDown) =>
      CallsFinish(to, Record(c.(phase := Disconnected, reading := false, writing := false), Down), onDown);
  }

  lemma HandleWriteFinishes(to: CopyTo, c: Conn, result: WriteResult, onComplete: seq<Call>)
    requires Finished(c)
    ensures Finished(HandleWrite(to, c, result, onComplete))
  {
    if c.writing && result.Accepts? && Min(result.most, |Readable(c.out)|) > 0 {
      var n := Min(result.most, |Readable(c.out)|);
      var c1 := Record(c.(out := Retrieved(c.out, n)), Wrote(Readable(c.out)[..n]));
      if Readable(c1.out) == [] {
        var c2 := Record(c1.(writing := false), Completed);
        if c2.phase == Connected {
          CallsFinish(to, c2, onComplete);
        } else {
          CallsIgnored(to, c2, onComplete);
        }
        ShutdownFinishes(Calls(to, c2, onComplete));
      }
    }
  }

  /** Events that no other thread had a part in. */
  predicate InLoopThread(e: Event) {
    !e.ForeignSend? && !e.ForeignShutdown? && !e.QueuedShutdown?
  }

  /** Half-close, with all calls made in the loop thread: no message is taken after a shutdown unless
      the connection ended in between, and a shut-down connection that is no longer writing has had its
      write side shut. */
  lemma {:induction false} ShutdownStopsAndFinishes(to: CopyTo, c: Conn, events: seq<Event>)
    requires OrderlyConn(c) && Finished(c) && AssertedRun(to, c, events)
    requires forall e :: e in events ==> InLoopThread(e)
    ensures var d := Run(to, c, events);
            && (d.phase == Disconnecting && !d.writing && !Ended(d.log) ==> HalfClosed in d.log)
            && (forall i, j :: 0 <= i < j < |d.log| && d.log[i] == ShutDown && d.log[j].Given? ==> Ended(d.log[..j]))
    decreases |events|
  {
    if events != [] {
      assert events[0] in events;
      HandleOrderly(to, c, events[0]);
      HandleFinishes(to, c, events[0]);
      ShutdownStopsAndFinishes(to, Handle(to, c, events[0]), events[1..]);
    } else {
      forall i, j | 0 <= i < j < |c.log| && c.log[i] == ShutDown && c.log[j].Given? ensures Ended(c.log[..j]) {
        OrderlyAt(c.log, i, j);
      }
    }
  }

  lemma {:induction false} OrderlyAt(log: seq<Note>, i: nat, j: nat)
    requires Orderly(log) && i < j < |log| && log[i] == ShutDown && log[j].Given?
    ensures Ended(log[..j])
    decreases |log|
  {
    if j + 1 == |log| {
      assert log == Init(log) + [Last(log)] && log[..j] == Init(log) && Init(log)[i] == log[i];
    } else {
      OrderlyAt(Init(log), i, j);
      assert Init(log)[..j] == log[..j];
    }
  }

  /** After a close the write side can be shut on unwritten bytes: the channel was told to stop
      writing with the buffer still full, and `shutdown()` is accepted again. */
  lemma HalfCloseAfterClose()
    ensures var events := [Establish([]), ForeignSend([7], Failed, []), Close, Message([Shutdown])];
            && AssertedRun(Writer, NewConn(), events)
            && HalfClosed in Run(Writer, NewConn(), events).log
            && Readable(Run(Writer, NewConn(), events).out) == [7]
  {
    var e0, e1, e2, e3 := Establish([]), ForeignSend([7], Failed, []), Close, Message([Shutdown]);
    var c0 := Handle(Writer, NewConn(), e0);
    var c1 := Handle(Writer, c0, e1);
    assert c1 == Keep(Writer, Record(c0, Given([7])), [7]);
    AppendedReadable(Fresh(), [7]);
    var c2 := Handle(Writer, c1, e2);
    var c3 := Handle(Writer, c2, e3);
    assert [Shutdown][1..] == [];
    assert c3 == ShutdownCall(c2);
    assert [e0, e1, e2, e3][1..] == [e1, e2, e3] && [e1, e2, e3][1..] == [e2, e3];
    assert [e2, e3][1..] == [e3] && [e3][1..] == [];
    assert AssertedRun(Writer, c3, []) && Run(Writer, c3, []) == c3;
    assert AssertedRun(Writer, c2, [e3]) && Run(Writer, c2, [e3]) == c3;
    assert AssertedRun(Writer, c1, [e2, e3]) && Run(Writer, c1, [e2, e3]) == c3;
    assert AssertedRun(Writer, c0, [e1, e2, e3]) && Run(Writer, c0, [e1, e2, e3]) == c3;
    assert c3.log[|c3.log| - 1] == HalfClosed;
  }

  /** The run from `c` to `d` shut the write side on unwritten bytes. */
  ghost predicate LosesBytes(c: Conn, d: Conn) {
    exists i :: |c.log| <= i < |d.log| && d.log[i] == HalfClosed && Waiting(d.log[..i]) > 0
  }

  /** No message but empty ones is noted from position k on. */
  predicate NothingGiven(log: seq<Note>, k: nat) {
    forall i :: k <= i < |log| && log[i].Given? ==> log[i].bytes == []
  }

  /** In every run, a half-close loses bytes exactly when they stalled: the connection had ended with
      bytes waiting and no message was given since. */
  lemma HalfCloseLossExact(to: CopyTo, events: seq<Event>, i: nat)
    requires AssertedRun(to, NewConn(), events)
    requires i < |Run(to, NewConn(), events).log| && Run(to, NewConn(), events).log[i] == HalfClosed
    ensures var log := Run(to, NewConn(), events).log;
            && (Waiting(log[..i]) > 0 <==> Stalled(log[..i]))
            && (Stalled(log[..i]) ==> Ended(log[..i]))
  {
    RunKeeps(to, NewConn(), events);
    var log := Run(to, NewConn(), events).log;
    SoundAtHalfClose(to, Run(to, NewConn(), events), i);
    if Stalled(log[..i]) {
      StalledEnded(log[..i]);
    }
  }

  /** What a call of `shutdown()` adds to the log. */
  function ShutdownNotes(c: Conn): seq<Note> {
    [ShutdownCalled(c.writing)] +
    if c.phase != Connected then [] else if c.writing then [ShutDown] else [ShutDown, HalfClosed]
  }

  lemma ShutdownLog(c: Conn)
    ensures ShutdownCall(c).log == c.log + ShutdownNotes(c)
  {
  }

  lemma ShutdownLoses(c: Conn)
    ensures LosesBytes(c, ShutdownCall(c)) <==> c.phase == Connected && !c.writing && Waiting(c.log) > 0
  {
    hide Waiting;
    var d, asked := ShutdownCall(c), AskShutdown(c);
    AskWaits(c);
    assert forall i :: |c.log| <= i < |asked.log| ==> asked.log[i] != HalfClosed;
    if c.phase == Connected && !c.writing {
      assert d.log == asked.log + [HalfClosed];
      assert d.log[..|asked.log|] == asked.log && d.log[|asked.log|] == HalfClosed;
    } else {
      assert d == asked;
    }
  }

  lemma AskWaits(c: Conn)
    ensures Waiting(AskShutdown(c).log) == Waiting(c.log)
  {
    hide Waiting;
    var c1 := Record(c, ShutdownCalled(c.writing));
    NoteWaits(c, ShutdownCalled(c.writing));
    NoteWaits(c1.(phase := Disconnecting), ShutDown);
  }

  lemma NoteWaits(c: Conn, n: Note)
    requires !n.Given? && !n.Wrote?
    ensures Waiting(Record(c, n).log) == Waiting(c.log)
  {
    RecordAdds(c, n);
  }

  /** At any point of a run, a call of `shutdown()` loses bytes exactly when the connection has ended
      and bytes are buffered that the channel no longer waits to write. */
  lemma ShutdownLossExact(to: CopyTo, c: Conn)
    requires Inv(to, c)
    ensures LosesBytes(c, ShutdownCall(c)) <==>
            c.phase == Connected && Ended(c.log) && !c.writing && Readable(c.out) != []
  {
    hide LosesBytes, ShutdownCall, SoundLog, SoundWarnings, Warned, Clean;
    ShutdownLoses(c);
    if Stalled(c.log) {
      StalledEnded(c.log);
    }
  }

  /** A shutdown right after a close loses bytes exactly when the buffer was not empty at the close. */
  lemma CloseThenShutdownExact(to: CopyTo, c: Conn)
    requires Inv(to, c)
    ensures LosesBytes(c, ShutdownCall(HandleClose(c))) <==> Readable(c.out) != []
  {
    EndKeeps(to, c, Connected, Closed);
    ShutdownLossExact(to, HandleClose(c));
    assert HandleClose(c).log[|c.log|] == Closed;
  }

  /** Whatever happens after a close, as long as no message is given: the half-closes issued lose
      bytes exactly when the buffer was not empty at the close. */
  lemma LossAfterCloseExact(to: CopyTo, c: Conn, events: seq<Event>)
    requires Inv(to, c) && AssertedRun(to, HandleClose(c), events)
    requires forall e :: e in events ==> Ordinary(e)
    requires NothingGiven(Run(to, HandleClose(c), events).log, |c.log|)
    ensures var d := Run(to, HandleClose(c), events);
            && c.log <= d.log
            && (LosesBytes(c, d) <==> HalfClosed in d.log[|c.log|..] && Readable(c.out) != [])
  {
    hide Inv, Waiting, Stalled;
    var c1 := HandleClose(c);
    var d, k := Run(to, c1, events), |c1.log|;
    StalledAtClose(to, c);
    RunKeeps(to, c1, events);
    RunSince(to, c1, events);
    assert d.log[..k] == c1.log && d.log[|c.log|] == Closed && NothingGiven(d.log, k);
    forall i | k <= i < |d.log| && d.log[i] == HalfClosed
      ensures Waiting(d.log[..i]) > 0 <==> Readable(c.out) != []
    {
      SoundAtHalfClose(to, d, i);
      NoEndWithin(d.log, k, i);
      StalledCarries(d.log, k, i);
    }
    if HalfClosed in d.log[|c.log|..] {
      var i :| 0 <= i < |d.log[|c.log|..]| && d.log[|c.log|..][i] == HalfClosed;
      assert d.log[|c.log| + i] == HalfClosed;
    }
  }

  lemma StalledAtClose(to: CopyTo, c: Conn)
    requires Inv(to, c)
    ensures Inv(to, HandleClose(c)) && (Stalled(HandleClose(c).log) <==> Readable(c.out) != [])
  {
    EndKeeps(to, c, Connected, Closed);
  }

  lemma SoundAtHalfClose(to: CopyTo, c: Conn, i: nat)
    requires Inv(to, c) && i < |c.log| && c.log[i] == HalfClosed
    ensures Waiting(c.log[..i]) > 0 <==> Stalled(c.log[..i])
  {
    SoundAt(to, c.log, i);
  }

  lemma NoEndWithin(log: seq<Note>, k: nat, i: nat)
    requires k <= i <= |log| && !Ended(log[k..])
    ensures !Ended(log[k..i])
  {
    assert forall n :: n in log[k..i] ==> n in log[k..];
  }

  lemma {:induction false} StalledCarries(log: seq<Note>, k: nat, i: nat)
    requires k <= i <= |log| && !Ended(log[k..i])
    requires NothingGiven(log, k)
    ensures Stalled(log[..i]) == Stalled(log[..k])
    decreases i
  {
    if i > k {
      hide Waiting;
      assert log[k..i] == log[k..i - 1] + [log[i - 1]];
      assert log[i - 1] in log[k..i] && forall n :: n in log[k..i - 1] ==> n in log[k..i];
      assert Init(log[..i]) == log[..i - 1] && Last(log[..i]) == log[i - 1];
      StalledCarries(log, k, i - 1);
    }
  }

  // ---------- what every event does ----------

  /** The notes with which handling a message begins: it is given, and written at once as far as the
      socket takes it when nothing is waiting; the callback is called when it took all. */
  function SendNotes(c: Conn, msg: seq<Byte>, result: WriteResult): seq<Note> {
    if c.writing || Readable(c.out) != [] || result.Failed? then [Given(msg)]
    else
      var n := Min(result.most, |msg|);
      [Given(msg), Wrote(msg[..n])] + if n == |msg| then [Completed] else []
  }

  function CallNote(c: Conn, call: Call): seq<Note> {
    match call
    case Send(msg, result, _) =>
      [SendCalled(c.writing)] + if c.phase == Connected then SendNotes(c, msg, result) else []
    case Shutdown => ShutdownNotes(c)
  }

  /** The notes with which handling an event begins; a callback's calls follow. */
  function EventNotes(c: Conn, e: Event): seq<Note> {
    match e
    case Establish(_) => [Up]
    case Message(calls) => if calls == [] then [] else CallNote(c, calls[0])
    case WriteReady(result, _) =>
      if !c.writing || result.Failed? || result.most == 0 || Readable(c.out) == [] then []
      else
        var n := Min(result.most, |Readable(c.out)|);
        [Wrote(Readable(c.out)[..n])] + if n == |Readable(c.out)| then [Completed] else []
    case ForeignSend(msg, result, _) => SendNotes(c, msg, result)
    case ForeignShutdown => [ShutdownCalled(c.writing)] + if c.phase == Connected then [ShutDown] else []
    case QueuedShutdown => if c.writing then [] else [HalfClosed]
    case Close => [Closed]
    case Destroy(_) => [Down]
  }

  /** A callback's calls are made one after the other, and nothing else is. */
  lemma {:induction false} CallsInOrder(to: CopyTo, c: Conn, a: seq<Call>, b: seq<Call>)
    ensures Calls(to, c, a + b) == Calls(to, Calls(to, c, a), b)
    ensures Calls(to, c, []) == c && forall call :: Calls(to, c, [call]) == OneCall(to, c, call)
    decreases |a|
  {
    forall call ensures Calls(to, c, [call]) == OneCall(to, c, call) {
      assert [call][1..] == [];
    }
    if a == [] {
      assert a + b == b;
    } else {
      assert (a + b)[1..] == a[1..] + b;
      CallsInOrder(to, OneCall(to, c, a[0]), a[1..], b);
    }
  }

  /** A message in the loop thread: a direct write when nothing is waiting, then the callback if the
      socket took all; otherwise the rest is buffered and the channel writes. */
  lemma SendExact(to: CopyTo, c: Conn, msg: seq<Byte>, result: WriteResult, onComplete: seq<Call>)
    ensures var d, notes := SendInLoop(to, c, msg, result, onComplete), SendNotes(c, msg, result);
            var n := if |notes| > 1 then |notes[1].bytes| else 0;
            && c.log + notes <= d.log
            && (|notes| == 3 ==> d == Calls(to, c.(log := c.log + notes), onComplete))
            && (|notes| < 3 ==>
                  && d.phase == c.phase && d.reading == c.reading
                  && |d.log| <= |c.log| + |notes| + 1
                  && d.writing == (c.writing || n < |msg|)
                  && |Readable(d.out)| == |Readable(c.out)| + |msg| - n
                  && (to == Writer || Readable(c.out) == [] ==> Readable(d.out) == Readable(c.out) + msg[n..]))
  {
    hide Appended;
    var c1 := Record(c, Given(msg));
    if !c.writing && Readable(c.out) == [] && result.Accepts? {
      var n := Min(result.most, |msg|);
      var c2 := Record(c1, Wrote(msg[..n]));
      if n < |msg| {
        assert c2.log == c.log + SendNotes(c, msg, result);
        KeepExact(to, c2, msg[n..]);
      } else {
        var c3 := Record(c2, Completed);
        assert c3 == c.(log := c.log + SendNotes(c, msg, result));
        CallsSince(to, c3, onComplete);
      }
    } else {
      assert c1.log == c.log + SendNotes(c, msg, result);
      KeepExact(to, c1, msg);
    }
  }

  lemma KeepExact(to: CopyTo, c: Conn, rest: seq<Byte>)
    ensures var d := Keep(to, c, rest);
            && c.log <= d.log && |d.log| <= |c.log| + 1 && d.phase == c.phase && d.reading == c.reading
            && d.writing == (c.writing || rest != [])
            && |Readable(d.out)| == |Readable(c.out)| + |rest|
            && (to == Writer || Readable(c.out) == [] ==> Readable(d.out) == Readable(c.out) + rest)
  {
    AppendEffect(to, c.out, rest);
    if rest == [] {
      assert Readable(c.out) + rest == Readable(c.out);
    }
  }

  /** Write readiness: the oldest bytes are written, as many as the socket takes, and the others stay;
      with none left writing stops, the callback follows, and then a half-close that was waiting for it. */
  lemma WriteReadyExact(to: CopyTo, c: Conn, result: WriteResult, onComplete: seq<Call>)
    ensures var d, notes := HandleWrite(to, c, result, onComplete), EventNotes(c, WriteReady(result, onComplete));
            && c.log + notes <= d.log
            && (notes == [] ==> d == c)
            && (|notes| == 1 ==>
                  && d == c.(log := c.log + notes, out := d.out)
                  && Readable(c.out) == notes[0].bytes + Readable(d.out))
            && (|notes| == 2 ==>
                  var emptied := Retrieved(c.out, |Readable(c.out)|);
                  var e := Calls(to, c.(writing := false, out := emptied, log := c.log + notes), onComplete);
                  d == if e.phase == Disconnecting && !e.writing then Record(e, HalfClosed) else e)
  {
    var notes := EventNotes(c, WriteReady(result, onComplete));
    if notes != [] {
      var n := Min(result.most, |Readable(c.out)|);
      var c1 := Record(c.(out := Retrieved(c.out, n)), Wrote(Readable(c.out)[..n]));
      assert Readable(c1.out) == Readable(c.out)[n..];
      if n == |Readable(c.out)| {
        var c2 := Record(c1.(writing := false), Completed);
        assert c2.log == c.log + notes;
        CallsSince(to, c2, onComplete);
        ShutdownSince(Calls(to, c2, onComplete));
      } else {
        assert c1.log == c.log + notes;
      }
    }
  }

  lemma OneCallBegins(to: CopyTo, c: Conn, call: Call)
    ensures c.log + CallNote(c, call) <= OneCall(to, c, call).log
  {
    match call
    case Send(msg, result, onComplete) =>
      var c1 := Record(c, SendCalled(c.writing));
      if c.phase == Connected {
        SendExact(to, c1, msg, result, onComplete);
        assert c.log + CallNote(c, call) == c1.log + SendNotes(c1, msg, result);
      }
    case Shutdown => ShutdownLog(c);
  }

  /** Handling an event begins with its notes. */
  lemma EventBegins(to: CopyTo, c: Conn, e: Event)
    requires Asserted(c, e)
    ensures c.log + EventNotes(c, e) <= Handle(to, c, e).log
  {
    hide SendInLoop, HandleWrite;
    match e
    case Establish(onUp) => CallsSince(to, Record(c.(phase := Connected, reading := true), Up), onUp);
    case Message(calls) =>
      if calls != [] {
        OneCallBegins(to, c, calls[0]);
        CallsSince(to, OneCall(to, c, calls[0]), calls[1..]);
      }
    case WriteReady(result, onComplete) => WriteReadyExact(to, c, result, onComplete);
    case ForeignSend(msg, result, onComplete) => SendExact(to, c, msg, result, onComplete);
    case Destroy(onDown) =>
      CallsSince(to, Record(c.(phase := Disconnected, reading := false, writing := false), Down), onDown);
    case _ =>
  }

  lemma {:induction false} RunGrows(to: CopyTo, c: Conn, events: seq<Event>)
    requires AssertedRun(to, c, events)
    ensures c.log <= Run(to, c, events).log
    decreases |events|
  {
    hide Handle, EventNotes;
    if events != [] {
      EventBegins(to, c, events[0]);
      RunGrows(to, Handle(to, c, events[0]), events[1..]);
    }
  }

  /** The k-th event of a run began with its notes. */
  lemma {:induction false} RunBegins(to: CopyTo, c: Conn, events: seq<Event>, k: nat)
    requires AssertedRun(to, c, events) && k < |events|
    ensures AssertedRun(to, c, events[..k])
    ensures var d := Run(to, c, events[..k]); d.log + EventNotes(d, events[k]) <= Run(to, c, events).log
    decreases k
  {
    hide Handle, EventNotes;
    var next := Handle(to, c, events[0]);
    if k == 0 {
      assert events[..0] == [];
      EventBegins(to, c, events[0]);
      RunGrows(to, next, events[1..]);
    } else {
      assert events[..k][1..] == events[1..][..k - 1];
      RunBegins(to, next, events[1..], k - 1);
    }
  }

  // ---------- what the log says of the state ----------

  /** The last of up, closed and down was up. */
  predicate IsUp(log: seq<Note>) {
    log != [] &&
    match Last(log)
    case Up => true
    case Closed => false
    case Down => false
    case _ => IsUp(Init(log))
  }

  /** Connected from the establishment on, and again from a close on; from then until user code calls
      `shutdown()`. */
  function PhaseAt(log: seq<Note>): Phase {
    if log == [] then Connecting
    else match Last(log)
      case Up => Connected
      case Closed => Connected
      case Down => Disconnected
      case ShutdownCalled(_) => if PhaseAt(Init(log)) == Connected then Disconnecting else PhaseAt(Init(log))
      case _ => PhaseAt(Init(log))
  }

  ghost predicate Told(c: Conn) {
    c.reading == IsUp(c.log) && c.phase == PhaseAt(c.log)
  }

  lemma {:induction false} LogCarries(log: seq<Note>, k: nat)
    requires k <= |log| && !Ended(log[k..]) && Up !in log[k..]
    ensures IsUp(log) == IsUp(log[..k])
    ensures PhaseAt(log) ==
            if PhaseAt(log[..k]) == Connected && ShutdownAsked(log[k..]) then Disconnecting else PhaseAt(log[..k])
    decreases |log|
  {
    if k == |log| {
      assert log[..k] == log;
    } else {
      assert log[k..] == Init(log)[k..] + [Last(log)];
      assert Init(log)[..k] == log[..k];
      LogCarries(Init(log), k);
      assert ShutdownAsked(log[k..]) <==> ShutdownAsked(Init(log)[k..]) || Last(log).ShutdownCalled? by {
        assert forall n :: n in log[k..] <==> n in Init(log)[k..] || n == Last(log);
      }
    }
  }

  lemma ToldSince(c: Conn, d: Conn)
    requires Since(c, d) && Told(c)
    ensures Told(d)
  {
    LogCarries(d.log, |c.log|);
    assert d.log[..|c.log|] == c.log;
  }

  lemma NoteTold(c: Conn, phase: Phase, writing: bool, n: Note)
    requires n == Up || n == Closed || n == Down
    requires phase == if n == Down then Disconnected else Connected
    ensures Told(Record(c.(phase := phase, reading := n == Up, writing := writing), n))
  {
    RecordAdds(c.(phase := phase, reading := n == Up, writing := writing), n);
  }

  lemma HandleTold(to: CopyTo, c: Conn, e: Event)
    requires Asserted(c, e) && Told(c)
    ensures Told(Handle(to, c, e))
  {
    hide Since, Calls, HandleWrite, SendInLoop, AskShutdown, ShutdownInLoop, Told;
    match e
    case Establish(onUp) =>
      var c1 := Record(c.(phase := Connected, reading := true), Up);
      NoteTold(c, Connected, c.writing, Up);
      CallsSince(to, c1, onUp);
      ToldSince(c1, Calls(to, c1, onUp));
    case Close => NoteTold(c, Connected, false, Closed);
    case Destroy(onDown) =>
      var c1 := Record(c.(phase := Disconnected, reading := false, writing := false), Down);
      NoteTold(c, Disconnected, false, Down);
      CallsSince(to, c1, onDown);
      ToldSince(c1, Calls(to, c1, onDown));
    case _ =>
      HandleSince(to, c, e);
      ToldSince(c, Handle(to, c, e));
  }

  /** In every run the channel asks for reading exactly from the establishment to the end, and the
      connection's state is what the log says. */
  lemma StateIsTold(to: CopyTo, events: seq<Event>)
    requires AssertedRun(to, NewConn(), events)
    ensures var c := Run(to, NewConn(), events); c.reading == IsUp(c.log) && c.phase == PhaseAt(c.log)
  {
    RunTold(to, NewConn(), events);
  }

  lemma {:induction false} RunTold(to: CopyTo, c: Conn, events: seq<Event>)
    requires AssertedRun(to, c, events) && Told(c)
    ensures Told(Run(to, c, events))
    decreases |events|
  {
    hide Handle, Told;
    if events != [] {
      HandleTold(to, c, events[0]);
      RunTold(to, Handle(to, c, events[0]), events[1..]);
    }
  }

  // ---------- the assertion in connectionDestroyed ----------

  /** User code called `shutdown()`, whether or not it was in a state to take effect. */
  predicate ShutdownAsked(log: seq<Note>) {
    exists n :: n in log && n.ShutdownCalled?
  }

  /** What happened from `c` to `d` without a new end: a connected one stays connected until user code
      calls `shutdown()`, any other keeps its phase. */
  ghost predicate Since(c: Conn, d: Conn) {
    && c.log <= d.log && d.reading == c.reading
    && !Ended(d.log[|c.log|..]) && Up !in d.log[|c.log|..]
    && (if c.phase == Connected
        then d.phase == if ShutdownAsked(d.log[|c.log|..]) then Disconnecting else Connected
        else d.phase == c.phase)
  }

  lemma SinceTransitive(c: Conn, d: Conn, e: Conn)
    requires Since(c, d) && Since(d, e)
    ensures Since(c, e)
  {
    assert e.log[|c.log|..] == d.log[|c.log|..] + e.log[|d.log|..];
  }

  lemma NoteSince(c: Conn, n: Note)
    requires !n.ShutdownCalled? && n != Up && n != Closed && n != Down
    ensures Since(c, Record(c, n))
  {
    assert Record(c, n).log[|c.log|..] == [n];
  }

  lemma KeepSince(to: CopyTo, c: Conn, rest: seq<Byte>)
    ensures Since(c, Keep(to, c, rest))
  {
    NoteSince(c, HighWater(|Readable(c.out)| + |rest|));
  }

  lemma ShutdownSince(c: Conn)
    ensures Since(c, ShutdownInLoop(c)) && Since(c, AskShutdown(c)) && Since(c, ShutdownCall(c))
  {
    hide Since, AskShutdown;
    var d := AskShutdown(c);
    AskSince(c);
    HalfCloseSince(c);
    HalfCloseSince(d);
    SinceTransitive(c, d, ShutdownInLoop(d));
  }

  lemma AskSince(c: Conn)
    ensures Since(c, AskShutdown(c))
  {
    var d, called := AskShutdown(c), ShutdownCalled(c.writing);
    assert d.log[|c.log|..] == if c.phase == Connected then [called, ShutDown] else [called];
    assert d.log[|c.log|..][0] == called;
  }

  lemma HalfCloseSince(c: Conn)
    ensures Since(c, ShutdownInLoop(c))
  {
    NoteSince(c, HalfClosed);
  }

  lemma {:induction false} SendSince(to: CopyTo, c: Conn, msg: seq<Byte>, result: WriteResult, onComplete: seq<Call>)
    ensures Since(c, SendInLoop(to, c, msg, result, onComplete))
    decreases onComplete, 1
  {
    var c1 := Record(c, Given(msg));
    NoteSince(c, Given(msg));
    if !c.writing && Readable(c.out) == [] && result.Accepts? {
      var n := Min(result.most, |msg|);
      var c2 := Record(c1, Wrote(msg[..n]));
      NoteSince(c1, Wrote(msg[..n]));
      SinceTransitive(c, c1, c2);
      if n < |msg| {
        KeepSince(to, c2, msg[n..]);
      } else {
        NoteSince(c2, Completed);
        CallsSince(to, Record(c2, Completed), onComplete);
        SinceTransitive(c2, Record(c2, Completed), Calls(to, Record(c2, Completed), onComplete));
      }
      SinceTransitive(c, c2, SendInLoop(to, c, msg, result, onComplete));
    } else {
      KeepSince(to, c1, msg);
      SinceTransitive(c, c1, Keep(to, c1, msg));
    }
  }

  lemma {:induction false} CallsSince(to: CopyTo, c: Conn, calls: seq<Call>)
    ensures Since(c, Calls(to, c, calls))
    decreases calls, 0
  {
    if calls != [] {
      var c1 := OneCall(to, c, calls[0]);
      match calls[0] {
        case Send(msg, result, onComplete) =>
          var called := Record(c, SendCalled(c.writing));
          NoteSince(c, SendCalled(c.writing));
          if c.phase == Connected {
            SendSince(to, called, msg, result, onComplete);
            SinceTransitive(c, called, c1);
          }
        case Shutdown => ShutdownSince(c);
      }
      CallsSince(to, c1, calls[1..]);
      SinceTransitive(c, c1, Calls(to, c1, calls[1..]));
    }
  }

  predicate Ordinary(e: Event) {
    !e.Establish? && !e.Close? && !e.Destroy?
  }

  lemma HandleSince(to: CopyTo, c: Conn, e: Event)
    requires Ordinary(e)
    ensures Since(c, Handle(to, c, e))
  {
    match e
    case Message(onMessage) => CallsSince(to, c, onMessage);
    case WriteReady(result, onComplete) =>
      if c.writing && result.Accepts? && Min(result.most, |Readable(c.out)|) > 0 {
        var n := Min(result.most, |Readable(c.out)|);
        var c1 := Record(c.(out := Retrieved(c.out, n)), Wrote(Readable(c.out)[..n]));
        NoteSince(c, Wrote(Readable(c.out)[..n]));
        assert Since(c, c1);
        var c2 := Record(c1.(writing := false), Completed);
        NoteSince(c1.(writing := false), Completed);
        SinceTransitive(c, c1.(writing := false), c2);
        var c3 := Calls(to, c2, onComplete);
        CallsSince(to, c2, onComplete);
        SinceTransitive(c, c2, c3);
        ShutdownSince(c3);
        SinceTransitive(c, c3, ShutdownInLoop(c3));
      }
    case ForeignSend(msg, result, onComplete) => SendSince(to, c, msg, result, onComplete);
    case ForeignShutdown => ShutdownSince(c);
    case QueuedShutdown => ShutdownSince(c);
  }

  /** From the close on, the assertion in `connectionDestroyed` holds exactly as long as no
      `shutdown()` has been called, by whomever and in whatever state, whatever else happened. */
  lemma DestroyAssertionExact(to: CopyTo, c: Conn, events: seq<Event>)
    requires forall e :: e in events ==> Ordinary(e)
    requires AssertedRun(to, HandleClose(c), events)
    ensures var d := Run(to, HandleClose(c), events);
            && c.log + [Closed] <= d.log
            && (Asserted(d, Destroy([])) <==> !ShutdownAsked(d.log[|c.log| + 1..]))
  {
    RunSince(to, HandleClose(c), events);
  }

  /** A shutdown after a close: the assertion in `connectionDestroyed` fails. */
  lemma DestroyAssertionFails()
    ensures var events := [Establish([]), Close, Message([Shutdown])];
            AssertedRun(Writer, NewConn(), events) && !Asserted(Run(Writer, NewConn(), events), Destroy([]))
  {
    var e0, e1, e2 := Establish([]), Close, Message([Shutdown]);
    var c0 := Handle(Writer, NewConn(), e0);
    var c1 := Handle(Writer, c0, e1);
    var c2 := Handle(Writer, c1, e2);
    assert [Shutdown][1..] == [];
    assert c2 == ShutdownCall(c1);
    assert [e0, e1, e2][1..] == [e1, e2] && [e1, e2][1..] == [e2] && [e2][1..] == [];
    assert AssertedRun(Writer, c2, []) && Run(Writer, c2, []) == c2;
    assert AssertedRun(Writer, c1, [e2]) && Run(Writer, c1, [e2]) == c2;
    assert AssertedRun(Writer, c0, [e1, e2]) && Run(Writer, c0, [e1, e2]) == c2;
  }

  lemma {:induction false} RunSince(to: CopyTo, c: Conn, events: seq<Event>)
    requires forall e :: e in events ==> Ordinary(e)
    requires AssertedRun(to, c, events)
    ensures Since(c, Run(to, c, events))
    decreases |events|
  {
    if events != [] {
      HandleSince(to, c, events[0]);
      RunSince(to, Handle(to, c, events[0]), events[1..]);
      SinceTransitive(c, Handle(to, c, events[0]), Run(to, c, events));
    }
  }
}

module Connections {
  import opened Bytes
  import opened Storage
  import opened Buffers
  import opened ConnectionSpec
  import opened ConnectionRuns
  import opened Numbers

  class TcpConnection {
    var phase: Phase
    var reading: bool
    var writing: bool
    const outputBuffer: Buffer
    ghost var log: seq<Note>

    ghost predicate Valid()
      reads this, outputBuffer
    {
      outputBuffer.Valid()
    }

    ghost function State(): Conn
      requires Valid()
      reads this, outputBuffer, outputBuffer.data
    {
      Conn(phase, reading, writing, outputBuffer.State(), log)
    }

    constructor (to: CopyTo)
      ensures Valid() && fresh(outputBuffer) && fresh(outputBuffer.data) && outputBuffer.copyTo == to
      ensures State() == NewConn()
    {
      phase, reading, writing, log := Connecting, false, false, [];
      outputBuffer := new Buffer(to);
    }

    /** `send` from the loop thread. */
    method Send(msg: seq<Byte>, result: WriteResult, onComplete: seq<Call>)
      requires Valid()
      modifies this, outputBuffer, outputBuffer.data
      ensures Valid() && (outputBuffer.data == old(outputBuffer.data) || fresh(outputBuffer.data))
      ensures State() == OneCall(outputBuffer.copyTo, old(State()), ConnectionSpec.Send(msg, result, onComplete))
      decreases onComplete, 2
    {
      log := log + [SendCalled(writing)];
      if phase == Connected {
        SendInLoop(msg, result, onComplete);
      }
    }

    /** `result` answers the direct `::write`; `onComplete` is what the write-complete callback does. */
    method SendInLoop(msg: seq<Byte>, result: WriteResult, onComplete: seq<Call>)
      requires Valid()
      modifies this, outputBuffer, outputBuffer.data
      ensures Valid() && (outputBuffer.data == old(outputBuffer.data) || fresh(outputBuffer.data))
      ensures State() == ConnectionSpec.SendInLoop(outputBuffer.copyTo, old(State()), msg, result, onComplete)
      ensures old(log) + SendNotes(old(State()), msg, result) <= log
      decreases onComplete, 1
    {
      SendExact(outputBuffer.copyTo, State(), msg, result, onComplete);
      log := log + [Given(msg)];
      var waiting := outputBuffer.ReadableBytes();
      var nwrote := 0;
      if !writing && waiting == 0 && result.Accepts? {
        nwrote := Min(result.most, |msg|);
        log := log + [Wrote(msg[..nwrote])];
        if nwrote == |msg| {
          log := log + [Completed];
          RunCallback(onComplete);
        }
      }
      KeepRest(msg[nwrote..]);
    }

    /** The second half of `sendInLoop`: what was not written is buffered. */
    method KeepRest(rest: seq<Byte>)
      requires Valid()
      modifies this, outputBuffer, outputBuffer.data
      ensures Valid() && (outputBuffer.data == old(outputBuffer.data) || fresh(outputBuffer.data))
      ensures State() == Keep(outputBuffer.copyTo, old(State()), rest)
    {
      hide Appended;
      if rest != [] {
        var already := outputBuffer.ReadableBytes();
        if already < HIGH_WATER_MARK && already + |rest| >= HIGH_WATER_MARK {
          log := log + [HighWater(already + |rest|)];
        }
        outputBuffer.Append(rest);
        if !writing {
          writing := true;
        }
      }
    }

    /** A user callback, making its calls one after the other. */
    method RunCallback(calls: seq<Call>)
      requires Valid()
      modifies this, outputBuffer, outputBuffer.data
      ensures Valid() && (outputBuffer.data == old(outputBuffer.data) || fresh(outputBuffer.data))
      ensures State() == Calls(outputBuffer.copyTo, old(State()), calls)
      decreases calls, 0
    {
      if calls != [] {
        match calls[0] {
          case Send(msg, result, onComplete) => Send(msg, result, onComplete);
          case Shutdown => Shutdown();
        }
        RunCallback(calls[1..]);
      }
    }

    method ShutdownInLoop()
      requires Valid()
      modifies `log
      ensures Valid() && State() == ConnectionSpec.ShutdownInLoop(old(State()))
    {
      if !writing {
        log := log + [HalfClosed];
      }
    }

    /** From here on sends are refused and a second call does nothing; the write side is shut at once
        exactly when the connection was connected and not writing. */
    method Shutdown()
      requires Valid()
      modifies `log, `phase
      ensures Valid() && State() == ShutdownCall(old(State()))
      ensures phase == if old(phase) == Connected then Disconnecting else old(phase)
      ensures ShutdownCall(State()) == Record(State(), ShutdownCalled(writing))
      ensures forall msg, result, onComplete :: OneCall(outputBuffer.copyTo, State(),
                ConnectionSpec.Send(msg, result, onComplete)) == Record(State(), SendCalled(writing))
      ensures old(log) <= log && (HalfClosed in log[|old(log)|..] <==> old(phase) == Connected && !writing)
    {
      ShutdownLog(State());
      log := log + [ShutdownCalled(writing)];
      if phase == Connected {
        phase := Disconnecting;
        log := log + [ShutDown];
        ShutdownInLoop();
      }
    }

    method HandleWrite(result: WriteResult, onComplete: seq<Call>)
      requires Valid()
      modifies this, outputBuffer, outputBuffer.data
      ensures Valid() && (outputBuffer.data == old(outputBuffer.data) || fresh(outputBuffer.data))
      ensures State() == ConnectionSpec.HandleWrite(outputBuffer.copyTo, old(State()), result, onComplete)
      ensures old(log) + EventNotes(old(State()), WriteReady(result, onComplete)) <= log
      ensures old(writing) && result.Accepts? && result.most < |old(Readable(outputBuffer.State()))| ==>
                writing && Readable(outputBuffer.State()) == old(Readable(outputBuffer.State()))[result.most..]
    {
      WriteReadyExact(outputBuffer.copyTo, State(), result, onComplete);
      if writing && result.Accepts? {
        var waiting := outputBuffer.ReadableBytes();
        var n := Min(result.most, waiting);
        if n > 0 {
          log := log + [Wrote(Readable(outputBuffer.State())[..n])];
          outputBuffer.Retrieve(n);
          waiting := outputBuffer.ReadableBytes();
          if waiting == 0 {
            writing := false;
            log := log + [Completed];
            RunCallback(onComplete);
            if phase == Disconnecting {
              ShutdownInLoop();
            }
          }
        }
      }
    }

    /** The channel is silenced, so that write readiness has no effect while bytes stay buffered; the
        state lets `shutdown()` through again.  The caller then runs the close callback (see `TcpServer`). */
    method HandleClose()
      requires Valid()
      modifies this
      ensures Valid() && State() == ConnectionSpec.HandleClose(old(State()))
      ensures Readable(outputBuffer.State()) == old(Readable(outputBuffer.State()))
      ensures forall result, onComplete ::
                ConnectionSpec.HandleWrite(outputBuffer.copyTo, State(), result, onComplete) == State()
      ensures HalfClosed in ShutdownCall(State()).log[|log|..]
    {
      phase := Connected;
      reading, writing := false, false;
      log := log + [Closed];
      ShutdownLog(State());
    }

    method ConnectionEstablished(onUp: seq<Call>)
      requires Valid() && phase == Connecting
      modifies this, outputBuffer, outputBuffer.data
      ensures Valid() && (outputBuffer.data == old(outputBuffer.data) || fresh(outputBuffer.data))
      ensures State() == Handle(outputBuffer.copyTo, old(State()), Establish(onUp))
      ensures reading && old(log) + [Up] <= log
    {
      CallsSince(outputBuffer.copyTo, Record(State().(phase := Connected, reading := true), Up), onUp);
      phase := Connected;
      reading := true;
      log := log + [Up];
      RunCallback(onUp);
    }

    method ConnectionDestroyed(onDown: seq<Call>)
      requires Valid() && phase == Connected
      modifies this, outputBuffer, outputBuffer.data
      ensures Valid() && (outputBuffer.data == old(outputBuffer.data) || fresh(outputBuffer.data))
      ensures State() == Handle(outputBuffer.copyTo, old(State()), Destroy(onDown))
      ensures phase == Disconnected && !reading && !writing
      ensures outputBuffer.State() == old(outputBuffer.State())
      ensures log == old(log) + [Down] + CallNotes(false, onDown)
    {
      CallsIgnored(outputBuffer.copyTo,
        Record(State().(phase := Disconnected, reading := false, writing := false), Down), onDown);
      phase := Disconnected;
      reading, writing := false, false;
      log := log + [Down];
      RunCallback(onDown);
    }
  }
}
