/** Connections whose buffer appends as the line is written (RN/net/Buffer.h:79): exactly which runs keep
their byte stream, whatever the messages say.

Nothing a connection does depends on the contents of a message, only on its length.  So two runs that
differ in contents alone stay alike, and whether a run is intact for all contents can be told from one.
*/
module AsWrittenRuns {
  import opened Bytes
  import opened Storage
  import opened ConnectionSpec
  import opened Numbers
  import opened Sequences
  import opened ConnectionRuns

  ghost predicate Intact(c: Conn) {
    WroteBytes(c.log) + Readable(c.out) == GivenBytes(c.log)
  }

  // ---------- runs that differ in the contents of messages ----------

  predicate SameCall(a: Call, b: Call)
    decreases a, 0
  {
    match a
    case Send(msg, result, onComplete) =>
      b.Send? && |b.msg| == |msg| && b.result == result && SameCalls(onComplete, b.onComplete)
    case Shutdown => b.Shutdown?
  }

  predicate SameCalls(a: seq<Call>, b: seq<Call>)
    decreases a, 0
  {
    |a| == |b| && (a != [] ==> SameCall(a[0], b[0]) && SameCalls(a[1..], b[1..]))
  }

  predicate SameEvent(e: Event, f: Event) {
    match e
    case Establish(onUp) => f.Establish? && SameCalls(onUp, f.onUp)
    case Message(onMessage) => f.Message? && SameCalls(onMessage, f.onMessage)
    case WriteReady(result, onComplete) =>
      f.WriteReady? && f.result == result && SameCalls(onComplete, f.onComplete)
    case ForeignSend(msg, result, onComplete) =>
      f.ForeignSend? && |f.msg| == |msg| && f.result == result && SameCalls(onComplete, f.onComplete)
    case Destroy(onDown) => f.Destroy? && SameCalls(onDown, f.onDown)
    case _ => e == f
  }

  /** The same events but for what the messages say. */
  predicate SameEvents(es: seq<Event>, fs: seq<Event>) {
    |es| == |fs| && forall i :: 0 <= i < |es| ==> SameEvent(es[i], fs[i])
  }

  predicate AlikeNote(m: Note, n: Note) {
    match m
    case Given(bytes) => n.Given? && |n.bytes| == |bytes|
    case Wrote(bytes) => n.Wrote? && |n.bytes| == |bytes|
    case _ => m == n
  }

  predicate AlikeLog(l: seq<Note>, m: seq<Note>) {
    |l| == |m| && forall i :: 0 <= i < |l| ==> AlikeNote(l[i], m[i])
  }

  predicate AlikeStore(s: Store, t: Store) {
    s.reader == t.reader && s.writer == t.writer && |s.data| == |t.data|
  }

  predicate Alike(c: Conn, d: Conn) {
    && c.phase == d.phase && c.reading == d.reading && c.writing == d.writing
    && AlikeStore(c.out, d.out)
    && AlikeLog(c.log, d.log)
  }

  lemma RecordAlike(c: Conn, d: Conn, m: Note, n: Note)
    requires Alike(c, d) && AlikeNote(m, n)
    ensures Alike(Record(c, m), Record(d, n))
  {
  }

  lemma KeepAlike(to: CopyTo, c: Conn, d: Conn, rest: seq<Byte>, other: seq<Byte>)
    requires Alike(c, d) && |rest| == |other|
    ensures Alike(Keep(to, c, rest), Keep(to, d, other))
  {
    hide AlikeLog;
    AppendedAlike(to, c.out, d.out, rest, other);
    var total := HighWater(|Readable(c.out)| + |rest|);
    RecordAlike(c, d, total, total);
  }

  lemma AppendedAlike(to: CopyTo, s: Store, t: Store, rest: seq<Byte>, other: seq<Byte>)
    requires AlikeStore(s, t) && |rest| == |other|
    ensures AlikeStore(Appended(to, s, rest), Appended(to, t, other))
  {
    EnsureSpaceKeeps(s, |rest|);
    EnsureSpaceKeeps(t, |rest|);
  }

  lemma {:induction false} SendAlike(to: CopyTo, c: Conn, d: Conn, msg: seq<Byte>, other: seq<Byte>,
                                     result: WriteResult, a: seq<Call>, b: seq<Call>)
    requires Alike(c, d) && |msg| == |other| && SameCalls(a, b)
    ensures Alike(SendInLoop(to, c, msg, result, a), SendInLoop(to, d, other, result, b))
    decreases a, 1
  {
    hide AlikeLog, Keep, SameCalls;
    var c1, d1 := Record(c, Given(msg)), Record(d, Given(other));
    RecordAlike(c, d, Given(msg), Given(other));
    if !c.writing && Readable(c.out) == [] && result.Accepts? {
      var n := Min(result.most, |msg|);
      var c2, d2 := Record(c1, Wrote(msg[..n])), Record(d1, Wrote(other[..n]));
      RecordAlike(c1, d1, Wrote(msg[..n]), Wrote(other[..n]));
      if n < |msg| {
        KeepAlike(to, c2, d2, msg[n..], other[n..]);
      } else {
        RecordAlike(c2, d2, Completed, Completed);
        CallsAlike(to, Record(c2, Completed), Record(d2, Completed), a, b);
      }
    } else {
      KeepAlike(to, c1, d1, msg, other);
    }
  }

  lemma {:induction false} CallsAlike(to: CopyTo, c: Conn, d: Conn, a: seq<Call>, b: seq<Call>)
    requires Alike(c, d) && SameCalls(a, b)
    ensures Alike(Calls(to, c, a), Calls(to, d, b))
    decreases a, 0
  {
    hide Alike;
    if a != [] {
      OneCallAlike(to, c, d, a[0], b[0]);
      CallsAlike(to, OneCall(to, c, a[0]), OneCall(to, d, b[0]), a[1..], b[1..]);
    }
  }

  lemma {:induction false} OneCallAlike(to: CopyTo, c: Conn, d: Conn, a: Call, b: Call)
    requires Alike(c, d) && SameCall(a, b)
    ensures Alike(OneCall(to, c, a), OneCall(to, d, b))
    decreases a, 0
  {
    hide SameCalls, SendInLoop, AlikeLog;
    match a
    case Send(msg, result, onComplete) =>
      RecordAlike(c, d, SendCalled(c.writing), SendCalled(c.writing));
      if c.phase == Connected {
        SendAlike(to, Record(c, SendCalled(c.writing)), Record(d, SendCalled(c.writing)),
                  msg, b.msg, result, onComplete, b.onComplete);
      }
    case Shutdown => ShutdownAlike(c, d);
  }

  lemma ShutdownAlike(c: Conn, d: Conn)
    requires Alike(c, d)
    ensures Alike(AskShutdown(c), AskShutdown(d)) && Alike(ShutdownInLoop(c), ShutdownInLoop(d))
    ensures Alike(ShutdownCall(c), ShutdownCall(d))
  {
    hide AlikeLog;
    var c1, d1 := Record(c, ShutdownCalled(c.writing)), Record(d, ShutdownCalled(c.writing));
    RecordAlike(c, d, ShutdownCalled(c.writing), ShutdownCalled(c.writing));
    RecordAlike(c1.(phase := Disconnecting), d1.(phase := Disconnecting), ShutDown, ShutDown);
    RecordAlike(c, d, HalfClosed, HalfClosed);
    RecordAlike(AskShutdown(c), AskShutdown(d), HalfClosed, HalfClosed);
  }

  lemma HandleWriteAlike(to: CopyTo, c: Conn, d: Conn, result: WriteResult, a: seq<Call>, b: seq<Call>)
    requires Alike(c, d) && SameCalls(a, b)
    ensures Alike(HandleWrite(to, c, result, a), HandleWrite(to, d, result, b))
  {
    hide AlikeLog, SameCalls;
    if c.writing && result.Accepts? && Min(result.most, |Readable(c.out)|) > 0 {
      var n := Min(result.most, |Readable(c.out)|);
      var c0, d0 := c.(out := Retrieved(c.out, n)), d.(out := Retrieved(d.out, n));
      var m1, n1 := Wrote(Readable(c.out)[..n]), Wrote(Readable(d.out)[..n]);
      RecordAlike(c0, d0, m1, n1);
      if Readable(c0.out) == [] {
        var c1, d1 := Record(c0, m1).(writing := false), Record(d0, n1).(writing := false);
        RecordAlike(c1, d1, Completed, Completed);
        CallsAlike(to, Record(c1, Completed), Record(d1, Completed), a, b);
        ShutdownAlike(Calls(to, Record(c1, Completed), a), Calls(to, Record(d1, Completed), b));
      }
    }
  }

  lemma HandleAlike(to: CopyTo, c: Conn, d: Conn, e: Event, f: Event)
    requires Alike(c, d) && SameEvent(e, f) && Asserted(c, e)
    ensures Asserted(d, f) && Alike(Handle(to, c, e), Handle(to, d, f))
  {
    hide AlikeLog, SameCalls, SendInLoop, HandleWrite, ShutdownInLoop, AskShutdown;
    match e
    case Establish(onUp) =>
      var c1, d1 := c.(phase := Connected, reading := true), d.(phase := Connected, reading := true);
      RecordAlike(c1, d1, Up, Up);
      CallsAlike(to, Record(c1, Up), Record(d1, Up), onUp, f.onUp);
    case Message(onMessage) => CallsAlike(to, c, d, onMessage, f.onMessage);
    case WriteReady(result, onComplete) => HandleWriteAlike(to, c, d, result, onComplete, f.onComplete);
    case ForeignSend(msg, result, onComplete) => SendAlike(to, c, d, msg, f.msg, result, onComplete, f.onComplete);
    case ForeignShutdown => ShutdownAlike(c, d);
    case QueuedShutdown => ShutdownAlike(c, d);
    case Close => EndAlike(c, d, Connected, Closed);
    case Destroy(onDown) =>
      EndAlike(c, d, Disconnected, Down);
      CallsAlike(to, Record(c.(phase := Disconnected, reading := false, writing := false), Down),
                 Record(d.(phase := Disconnected, reading := false, writing := false), Down), onDown, f.onDown);
  }

  lemma EndAlike(c: Conn, d: Conn, phase: Phase, n: Note)
    requires Alike(c, d) && (n == Closed || n == Down)
    ensures Alike(Record(c.(phase := phase, reading := false, writing := false), n),
                  Record(d.(phase := phase, reading := false, writing := false), n))
  {
  }

  lemma {:induction false} RunAlike(to: CopyTo, c: Conn, d: Conn, es: seq<Event>, fs: seq<Event>)
    requires Alike(c, d) && SameEvents(es, fs) && AssertedRun(to, c, es)
    ensures AssertedRun(to, d, fs) && Alike(ConnectionRuns.Run(to, c, es), ConnectionRuns.Run(to, d, fs))
    decreases |es|
  {
    hide Alike, Handle;
    if es != [] {
      HandleAlike(to, c, d, es[0], fs[0]);
      RunAlike(to, Handle(to, c, es[0]), Handle(to, d, fs[0]), es[1..], fs[1..]);
    }
  }

  /** A backlog shows in the lengths alone. */
  lemma {:induction false} BacklogAlike(l: seq<Note>, m: seq<Note>)
    requires AlikeLog(l, m)
    ensures |GivenBytes(l)| == |GivenBytes(m)| && |WroteBytes(l)| == |WroteBytes(m)|
    ensures NeverBacklogged(l) <==> NeverBacklogged(m)
    decreases |l|
  {
    if l != [] {
      assert AlikeNote(Last(l), Last(m));
      BacklogAlike(Init(l), Init(m));
    }
  }

  // ---------- contents that show every backlog ----------

  /** Once a message has met a backlog the byte stream is no longer intact. */
  ghost predicate Spoilt(c: Conn) {
    NeverBacklogged(c.log) || !Intact(c)
  }

  /** The same between recording a message and disposing of `rest`, when no backlog is in its way. */
  ghost predicate SpoiltMid(c: Conn, rest: seq<Byte>) {
    && (Readable(c.out) == [] || rest == [])
    && (NeverBacklogged(c.log) || WroteBytes(c.log) + Readable(c.out) + rest != GivenBytes(c.log))
  }

  lemma GivenSpoilt(c: Conn, msg: seq<Byte>)
    requires Inv(Reader, c) && Spoilt(c) && (Readable(c.out) == [] || msg == [])
    ensures SpoiltMid(Record(c, Given(msg)), msg)
  {
    hide SoundLog, SoundWarnings, Warned, Stalled;
    RecordAdds(c, Given(msg));
    var all, given := WroteBytes(c.log) + Readable(c.out), GivenBytes(c.log);
    assert (all + msg)[..|given|] == all && (given + msg)[..|given|] == given;
  }

  lemma WroteSpoilt(c: Conn, msg: seq<Byte>, n: nat)
    requires SpoiltMid(c, msg) && Readable(c.out) == [] && n <= |msg|
    ensures SpoiltMid(Record(c, Wrote(msg[..n])), msg[n..])
  {
    RecordAdds(c, Wrote(msg[..n]));
    var w := WroteBytes(c.log);
    assert w + [] + msg == (w + msg[..n]) + [] + msg[n..];
  }

  lemma NoteSpoilt(c: Conn, n: Note)
    requires Spoilt(c) && !n.Given? && !n.Wrote?
    ensures Spoilt(Record(c, n))
  {
    RecordAdds(c, n);
    assert GivenBytes(c.log) + [] == GivenBytes(c.log) && WroteBytes(c.log) + [] == WroteBytes(c.log);
  }

  lemma KeepSpoilt(c: Conn, rest: seq<Byte>)
    requires SpoiltMid(c, rest)
    ensures Spoilt(Keep(Reader, c, rest))
  {
    hide Appended, NeverBacklogged;
    var w := WroteBytes(c.log);
    if rest == [] {
      assert w + Readable(c.out) + rest == w + Readable(c.out);
      assert Keep(Reader, c, rest) == c;
    } else {
      AppendEffect(Reader, c.out, rest);
      assert w + Readable(c.out) + rest == w + (Readable(c.out) + rest);
      BufferSpoilt(c, rest);
    }
  }

  /** Buffering a message, where the stream is no longer intact or need not be. */
  lemma BufferSpoilt(c: Conn, rest: seq<Byte>)
    requires rest != [] && Spoilt(c.(out := Appended(Reader, c.out, rest), writing := true))
    ensures Spoilt(Keep(Reader, c, rest))
  {
    hide Appended, Spoilt;
    var full := c.(out := Appended(Reader, c.out, rest), writing := true);
    var note := HighWater(|Readable(c.out)| + |rest|);
    NoteSpoilt(full, note);
    assert Keep(Reader, c, rest) == full || Keep(Reader, c, rest) == Record(full, note);
  }

  /** k bytes unlike the oldest one waiting. */
  function Unlike(c: Conn, k: nat): (msg: seq<Byte>)
    ensures |msg| == k
  {
    var at := |WroteBytes(c.log)|;
    var b: Byte := if at < |GivenBytes(c.log)| then Other(GivenBytes(c.log)[at]) else 0;
    seq(k, _ => b)
  }

  /** Bytes unlike the oldest one waiting, appended over it. */
  lemma BackloggedKeep(c: Conn, k: nat)
    requires Inv(Reader, c) && Readable(c.out) != [] && k > 0
    ensures Spoilt(Keep(Reader, Record(c, Given(Unlike(c, k))), Unlike(c, k)))
  {
    hide Appended, NeverBacklogged, SoundLog, SoundWarnings, Warned, Stalled;
    var msg, w, given := Unlike(c, k), WroteBytes(c.log), GivenBytes(c.log);
    var c1 := Record(c, Given(msg));
    RecordAdds(c, Given(msg));
    AsWrittenShape(c.out, msg);
    var full := c1.(out := Appended(Reader, c.out, msg), writing := true);
    assert (w + Readable(full.out))[|w|] == Readable(full.out)[0] == msg[0];
    assert (given + msg)[|w|] == given[|w|];
    assert !Intact(full);
    BufferSpoilt(c1, msg);
  }

  lemma {:induction false} SameAsItself(a: seq<Call>)
    ensures SameCalls(a, a)
    decreases a, 0
  {
    if a != [] {
      if a[0].Send? {
        SameAsItself(a[0].onComplete);
      }
      SameAsItself(a[1..]);
    }
  }

  lemma {:induction false} SendSpite(c: Conn, k: nat, result: WriteResult, a: seq<Call>)
    returns (msg: seq<Byte>, b: seq<Call>)
    requires Inv(Reader, c) && Spoilt(c)
    ensures |msg| == k && SameCalls(a, b) && Spoilt(SendInLoop(Reader, c, msg, result, b))
    decreases a, 1
  {
    hide Inv, Spoilt, SpoiltMid, Keep, SameCalls, Unlike;
    msg := Unlike(c, k);
    b := a;
    SameAsItself(a);
    var c1 := Record(c, Given(msg));
    if Readable(c.out) != [] && k > 0 {
      BackloggedKeep(c, k);
    } else {
      GivenSpoilt(c, msg);
      if !c.writing && Readable(c.out) == [] && result.Accepts? {
        var n := Min(result.most, k);
        var c2 := Record(c1, Wrote(msg[..n]));
        WroteSpoilt(c1, msg, n);
        if n < k {
          KeepSpoilt(c2, msg[n..]);
        } else {
          var c3 := Record(c2, Completed);
          DirectSpoilt(c, msg);
          b := CallsSpite(c3, a);
        }
      } else {
        KeepSpoilt(c1, msg);
      }
    }
  }

  lemma DirectSpoilt(c: Conn, msg: seq<Byte>)
    requires Inv(Reader, c) && Spoilt(c) && !c.writing && Readable(c.out) == []
    ensures var c3 := Record(Record(Record(c, Given(msg)), Wrote(msg[..|msg|])), Completed);
            Inv(Reader, c3) && Spoilt(c3)
  {
    hide Inv, Settled, MidSend, SoundLog, NeverBacklogged;
    var c1 := Record(c, Given(msg));
    var c2 := Record(c1, Wrote(msg[..|msg|]));
    GivenKeeps(Reader, c, msg);
    DirectWrite(Reader, c1, msg, |msg|);
    CompletedKeeps(Reader, c2);
    GivenSpoilt(c, msg);
    WroteSpoilt(c1, msg, |msg|);
    assert WroteBytes(c2.log) + Readable(c2.out) + [] == WroteBytes(c2.log) + Readable(c2.out);
    NoteSpoilt(c2, Completed);
  }

  lemma {:induction false} CallsSpite(c: Conn, a: seq<Call>) returns (b: seq<Call>)
    requires Inv(Reader, c) && Spoilt(c)
    ensures SameCalls(a, b) && Spoilt(Calls(Reader, c, b))
    decreases a, 0
  {
    hide Inv, Spoilt, OneCall;
    b := [];
    if a != [] {
      var x := OneCallSpite(c, a[0]);
      var rest := CallsSpite(OneCall(Reader, c, x), a[1..]);
      b := [x] + rest;
      assert b[1..] == rest;
    }
  }

  lemma {:induction false} OneCallSpite(c: Conn, x: Call) returns (y: Call)
    requires Inv(Reader, c) && Spoilt(c)
    ensures SameCall(x, y) && Inv(Reader, OneCall(Reader, c, y)) && Spoilt(OneCall(Reader, c, y))
    decreases x, 0
  {
    hide Inv, Spoilt, SendInLoop, SameCalls;
    match x
    case Send(msg, result, onComplete) =>
      var c1 := Record(c, SendCalled(c.writing));
      QuietNoteKeeps(Reader, c, SendCalled(c.writing));
      NoteSpoilt(c, SendCalled(c.writing));
      var bad, b := SendSpite(c1, |msg|, result, onComplete);
      y := Send(bad, result, b);
      SendKeeps(Reader, c1, bad, result, b);
    case Shutdown =>
      y := Shutdown;
      ShutdownKeeps(Reader, c);
      ShutdownSpoilt(c);
  }

  lemma ShutdownSpoilt(c: Conn)
    requires Spoilt(c)
    ensures Spoilt(ShutdownInLoop(c)) && Spoilt(AskShutdown(c)) && Spoilt(ShutdownCall(c))
  {
    hide Spoilt;
    NoteSpoilt(c, HalfClosed);
    NoteSpoilt(c, ShutdownCalled(c.writing));
    var c1 := Record(c, ShutdownCalled(c.writing));
    StateSpoilt(c1, c1.(phase := Disconnecting));
    NoteSpoilt(c1.(phase := Disconnecting), ShutDown);
    NoteSpoilt(AskShutdown(c), HalfClosed);
  }

  lemma StateSpoilt(c: Conn, d: Conn)
    requires Spoilt(c) && d.out == c.out && d.log == c.log
    ensures Spoilt(d)
  {
  }

  lemma HandleWriteSpite(c: Conn, result: WriteResult, a: seq<Call>) returns (b: seq<Call>)
    requires Inv(Reader, c) && Spoilt(c)
    ensures SameCalls(a, b) && Spoilt(HandleWrite(Reader, c, result, b))
  {
    hide Inv, Settled, Spoilt, SameCalls, Calls;
    b := a;
    SameAsItself(a);
    if c.writing && result.Accepts? && Min(result.most, |Readable(c.out)|) > 0 {
      var n := Min(result.most, |Readable(c.out)|);
      WriteKeeps(Reader, c, n);
      var c1 := Record(c.(out := Retrieved(c.out, n)), Wrote(Readable(c.out)[..n]));
      WriteSpoilt(c, n);
      if Readable(c1.out) == [] {
        var c2 := c1.(writing := false);
        CompletedKeeps(Reader, c2);
        StateSpoilt(c1, c2);
        NoteSpoilt(c2, Completed);
        b := CallsSpite(Record(c2, Completed), a);
        ShutdownSpoilt(Calls(Reader, Record(c2, Completed), b));
      }
    }
  }

  lemma WriteSpoilt(c: Conn, n: nat)
    requires Spoilt(c) && n <= |Readable(c.out)|
    ensures Spoilt(Record(c.(out := Retrieved(c.out, n)), Wrote(Readable(c.out)[..n])))
  {
    var c0 := c.(out := Retrieved(c.out, n));
    RecordAdds(c0, Wrote(Readable(c.out)[..n]));
    var w := WroteBytes(c.log);
    assert w + Readable(c.out) == (w + Readable(c.out)[..n]) + Readable(c0.out);
  }

  lemma HandleSpite(c: Conn, e: Event) returns (f: Event)
    requires Inv(Reader, c) && Spoilt(c) && Asserted(c, e)
    ensures SameEvent(e, f) && Asserted(c, f) && Spoilt(Handle(Reader, c, f))
  {
    hide Inv, Spoilt, SameCalls, SendInLoop, HandleWrite, Calls, ShutdownInLoop, AskShutdown;
    f := e;
    match e
    case Establish(onUp) =>
      var c1 := c.(phase := Connected, reading := true);
      StateKeeps(Reader, c, c1);
      StateSpoilt(c, c1);
      QuietNoteKeeps(Reader, c1, Up);
      NoteSpoilt(c1, Up);
      var calls := CallsSpite(Record(c1, Up), onUp);
      f := Establish(calls);
    case Message(onMessage) =>
      var calls := CallsSpite(c, onMessage);
      f := Message(calls);
    case WriteReady(result, onComplete) =>
      var calls := HandleWriteSpite(c, result, onComplete);
      f := WriteReady(result, calls);
    case ForeignSend(msg, result, onComplete) =>
      var bad, calls := SendSpite(c, |msg|, result, onComplete);
      f := ForeignSend(bad, result, calls);
    case ForeignShutdown => ShutdownSpoilt(c);
    case QueuedShutdown => ShutdownSpoilt(c);
    case Close => EndSpoilt(c, Connected, Closed);
    case Destroy(onDown) =>
      EndKeeps(Reader, c, Disconnected, Down);
      EndSpoilt(c, Disconnected, Down);
      var calls := CallsSpite(Record(c.(phase := Disconnected, reading := false, writing := false), Down), onDown);
      f := Destroy(calls);
  }

  lemma EndSpoilt(c: Conn, phase: Phase, n: Note)
    requires Spoilt(c) && (n == Closed || n == Down)
    ensures Spoilt(Record(c.(phase := phase, reading := false, writing := false), n))
  {
    NoteSpoilt(c.(phase := phase, reading := false, writing := false), n);
  }

  /** The events with the contents of every message changed so that each backlog leaves its mark. */
  lemma {:induction false} RunSpite(c: Conn, d: Conn, es: seq<Event>) returns (fs: seq<Event>)
    requires Alike(c, d) && AssertedRun(Reader, c, es) && Inv(Reader, d) && Spoilt(d)
    ensures SameEvents(es, fs) && AssertedRun(Reader, d, fs) && Spoilt(ConnectionRuns.Run(Reader, d, fs))
    decreases |es|
  {
    hide Alike, Inv, Spoilt, Handle, SameEvent;
    fs := [];
    if es != [] {
      AssertedAlike(c, d, es[0]);
      var f := HandleSpite(d, es[0]);
      HandleAlike(Reader, c, d, es[0], f);
      HandleKeeps(Reader, d, f);
      var rest := RunSpite(Handle(Reader, c, es[0]), Handle(Reader, d, f), es[1..]);
      fs := [f] + rest;
      assert fs[1..] == rest;
      SameEventsAdd(es, f, rest);
    }
  }

  lemma SameEventsAdd(es: seq<Event>, f: Event, rest: seq<Event>)
    requires es != [] && SameEvent(es[0], f) && SameEvents(es[1..], rest)
    ensures SameEvents(es, [f] + rest)
  {
    hide SameEvent;
    assert forall i :: 0 < i < |es| ==> es[i] == es[1..][i - 1];
  }

  lemma AssertedAlike(c: Conn, d: Conn, e: Event)
    requires Alike(c, d)
    ensures Asserted(c, e) <==> Asserted(d, e)
  {
  }

  // ---------- the exact conditions ----------

  /** As written, a run keeps its byte stream for all contents of its messages exactly when no message
      is given while earlier bytes wait. */
  lemma RunAsWrittenExact(events: seq<Event>)
    requires AssertedRun(Reader, NewConn(), events)
    ensures (forall fs | SameEvents(events, fs) ::
               AssertedRun(Reader, NewConn(), fs) && Intact(ConnectionRuns.Run(Reader, NewConn(), fs)))
       <==> NeverBacklogged(ConnectionRuns.Run(Reader, NewConn(), events).log)
  {
    hide Handle;
    var c, d := NewConn(), ConnectionRuns.Run(Reader, NewConn(), events);
    if NeverBacklogged(d.log) {
      forall fs | SameEvents(events, fs)
        ensures AssertedRun(Reader, c, fs) && Intact(ConnectionRuns.Run(Reader, c, fs))
      {
        RunAlike(Reader, c, c, events, fs);
        RunKeeps(Reader, c, fs);
        BacklogAlike(d.log, ConnectionRuns.Run(Reader, c, fs).log);
      }
    } else {
      var fs := RunSpite(c, c, events);
      RunAlike(Reader, c, c, events, fs);
      BacklogAlike(d.log, ConnectionRuns.Run(Reader, c, fs).log);
      assert SameEvents(events, fs);
    }
  }

  /** As written and after a run without a backlog, a send keeps the byte stream for all contents, those
      that its write-complete callback sends included, exactly when it brings no backlog about; with
      nothing sent by the callback, exactly when the buffer or the message is empty. */
  lemma SendAsWrittenExact(c: Conn, k: nat, result: WriteResult, onComplete: seq<Call>)
    requires Inv(Reader, c) && NeverBacklogged(c.log)
    ensures (forall msg: seq<Byte>, calls | |msg| == k && SameCalls(onComplete, calls) ::
               Intact(SendInLoop(Reader, c, msg, result, calls)))
       <==> NeverBacklogged(SendInLoop(Reader, c, Zeros(k), result, onComplete).log)
    ensures onComplete == [] ==>
              (NeverBacklogged(SendInLoop(Reader, c, Zeros(k), result, onComplete).log) <==>
               Readable(c.out) == [] || k == 0)
  {
    hide SendInLoop, Inv, NeverBacklogged, SameCalls, AlikeLog;
    var d := SendInLoop(Reader, c, Zeros(k), result, onComplete);
    SameLog(c.log);
    forall msg: seq<Byte>, calls | |msg| == k && SameCalls(onComplete, calls)
      ensures NeverBacklogged(d.log) <==> NeverBacklogged(SendInLoop(Reader, c, msg, result, calls).log)
      ensures NeverBacklogged(d.log) ==> Intact(SendInLoop(Reader, c, msg, result, calls))
    {
      var e := SendInLoop(Reader, c, msg, result, calls);
      SendAlike(Reader, c, c, Zeros(k), msg, result, onComplete, calls);
      BacklogAlike(d.log, e.log);
      SendKeeps(Reader, c, msg, result, calls);
      CleanIntact(e);
    }
    var bad, calls := SendSpite(c, k, result, onComplete);
    assert NeverBacklogged(d.log) <==> NeverBacklogged(SendInLoop(Reader, c, bad, result, calls).log);
    if onComplete == [] {
      LoneSend(c, Zeros(k), result);
    }
  }

  lemma SameLog(log: seq<Note>)
    ensures AlikeLog(log, log)
  {
  }

  lemma CleanIntact(c: Conn)
    requires Inv(Reader, c)
    ensures NeverBacklogged(c.log) ==> Intact(c)
  {
  }

  lemma NoteBacklog(c: Conn, n: Note)
    ensures NeverBacklogged(Record(c, n).log) <==>
            NeverBacklogged(c.log) && (n.Given? && n.bytes != [] ==> |GivenBytes(c.log)| <= |WroteBytes(c.log)|)
  {
    RecordAdds(c, n);
  }

  lemma KeepBacklog(c: Conn, rest: seq<Byte>)
    ensures NeverBacklogged(Keep(Reader, c, rest).log) <==> NeverBacklogged(c.log)
  {
    hide NeverBacklogged, Appended;
    NoteBacklog(c, HighWater(|Readable(c.out)| + |rest|));
  }

  lemma LoneSend(c: Conn, msg: seq<Byte>, result: WriteResult)
    requires Inv(Reader, c) && NeverBacklogged(c.log)
    ensures NeverBacklogged(SendInLoop(Reader, c, msg, result, []).log) <==> Readable(c.out) == [] || msg == []
  {
    hide NeverBacklogged, SoundLog, SoundWarnings, Warned, Stalled, Keep;
    var c1 := Record(c, Given(msg));
    NoteBacklog(c, Given(msg));
    KeepBacklog(c1, msg);
    if result.Accepts? {
      var n := Min(result.most, |msg|);
      var c2 := Record(c1, Wrote(msg[..n]));
      NoteBacklog(c1, Wrote(msg[..n]));
      NoteBacklog(c2, Completed);
      KeepBacklog(c2, msg[n..]);
    }
  }

  /** As written, two messages sent while the socket refuses: the second takes the place of the first. */
  lemma AsWrittenCorrupts()
    ensures var events := [Establish([]), Message([Send([1], Failed, []), Send([2], Failed, [])])];
            && AssertedRun(Reader, NewConn(), events)
            && GivenBytes(ConnectionRuns.Run(Reader, NewConn(), events).log) == [1, 2]
            && Readable(ConnectionRuns.Run(Reader, NewConn(), events).out) == [2, 0]
  {
    var send2 := Send([2], Failed, []);
    var sends := [Send([1], Failed, []), send2];
    var e0, e1 := Establish([]), Message(sends);
    var c0 := Record(NewConn().(phase := Connected, reading := true), Up);
    assert Handle(Reader, NewConn(), e0) == c0;
    AsWrittenLosesBytes();
    var called0 := Record(c0, SendCalled(false));
    var c1 := SendInLoop(Reader, called0, [1], Failed, []);
    assert c1 == Keep(Reader, Record(called0, Given([1])), [1]);
    assert c1.out == Appended(Reader, Fresh(), [1]);
    var called1 := Record(c1, SendCalled(true));
    var c2 := SendInLoop(Reader, called1, [2], Failed, []);
    assert c2 == Keep(Reader, Record(called1, Given([2])), [2]);
    assert sends[1..] == [send2] && [send2][1..] == [];
    assert OneCall(Reader, c1, send2) == c2 && Calls(Reader, c2, []) == c2;
    assert Calls(Reader, c1, [send2]) == c2;
    assert OneCall(Reader, c0, sends[0]) == c1;
    assert Calls(Reader, c0, sends) == Calls(Reader, c1, sends[1..]) == c2;
    assert Handle(Reader, c0, e1) == c2;
    var events := [e0, e1];
    assert events[1..] == [e1] && [e1][1..] == [];
    assert AssertedRun(Reader, c2, []);
    assert AssertedRun(Reader, c0, [e1]);
    assert ConnectionRuns.Run(Reader, c0, [e1]) == c2;
    assert c2.log == [Up, SendCalled(false), Given([1]), SendCalled(true), Given([2])];
    NoteSums();
  }

  lemma NoteSums()
    ensures GivenBytes([Up, SendCalled(false), Given([1]), SendCalled(true), Given([2])]) == [1, 2]
  {
    hide GivenBytes;
    var log := [Up, SendCalled(false), Given([1]), SendCalled(true), Given([2])];
    GivenNothing();
    GivenAt(log, 0);
    GivenAt(log, 1);
    GivenAt(log, 2);
    GivenAt(log, 3);
    GivenAt(log, 4);
    assert log[..0] == [] && log[..5] == log;
  }

  lemma GivenNothing()
    ensures GivenBytes([]) == []
  {
  }

  lemma GivenAt(log: seq<Note>, i: nat)
    requires i < |log|
    ensures GivenBytes(log[..i + 1]) == GivenBytes(log[..i]) + (if log[i].Given? then log[i].bytes else [])
  {
    assert Init(log[..i + 1]) == log[..i];
  }
}
