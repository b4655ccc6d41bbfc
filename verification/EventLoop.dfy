/** Handing functors to an event loop (RN/net/EventLoop.cpp, RN/net/IOWakeupTrigger.cpp).

Any thread may queue a functor; the loop thread polls, dispatches, swaps the queue out and runs it.
A step is one thing that one thread does between two points where another may interfere: the push
under the mutex, the write to the eventfd that follows it, the swap under the mutex, and so on.
*/
module EventLoop {
  import opened Sequences

  type Functor = nat
  type Thread = nat

  /** Where the eventfd counter stops: a non-blocking write then fails and leaves it as it is. */
  const EVENTFD_MAX: nat := 0xffff_ffff_ffff_fffe

  /** Where the loop thread is: outside `loop()`, at the `while`, in poll, dispatching, about to swap,
      or running functors. */
  datatype Pc = Idle | Head | Poll | Dispatch | Swap | Running

  datatype Loop = Loop(
    pc: Pc,
    quit: bool,
    calling: bool,           // callingPendingFunctors_
    pending: seq<Functor>,   // pendingFunctors_
    batch: seq<Functor>,     // what is left of the swapped-out functors
    executed: seq<Functor>,
    history: seq<Functor>,   // every push, in order
    counter: nat,            // the eventfd
    waking: set<Thread>,     // other threads between their push, or quit, and their wakeup
    selfWaking: bool,        // the loop thread between its push and its wakeup
    early: bool)             // the loop thread pushed outside loop() since the last swap

  const START := Loop(Idle, false, false, [], [], [], [], 0, {}, false, false)

  datatype Action =
    | Enter
    | Check
    | PollReturns
    | Drain
    | EndDispatch
    | DoSwap
    | RunOne
    | EndRound
    | LoopPush(f: Functor)
    | SelfWake
    | LoopQuit
    | ForeignPush(t: Thread, f: Functor)
    | ForeignQuit(t: Thread)
    | Wake(t: Thread)

  /** Points at which the loop thread runs user code, outside `wakeup`. */
  predicate InUserCode(s: Loop) {
    !s.selfWaking && (s.pc == Idle || s.pc == Dispatch || s.pc == Running)
  }

  predicate Enabled(s: Loop, a: Action) {
    match a
    case Enter => s.pc == Idle
    case Check => s.pc == Head
    case PollReturns => s.pc == Poll
    case Drain => s.pc == Dispatch
    case EndDispatch => s.pc == Dispatch
    case DoSwap => s.pc == Swap
    case RunOne => s.pc == Running && !s.selfWaking && s.batch != []
    case EndRound => s.pc == Running && !s.selfWaking && s.batch == []
    case LoopPush(_) => InUserCode(s)
    case SelfWake => s.selfWaking
    case LoopQuit => InUserCode(s)
    case ForeignPush(t, _) => t !in s.waking
    case ForeignQuit(t) => t !in s.waking
    case Wake(t) => t in s.waking
  }

  function Signalled(counter: nat): nat {
    if counter < EVENTFD_MAX then counter + 1 else counter
  }

  function Next(s: Loop, a: Action): Loop
    requires Enabled(s, a)
  {
    match a
    case Enter => s.(pc := Head, quit := false)
    case Check => s.(pc := if s.quit then Idle else Poll)
    case PollReturns => s.(pc := Dispatch)
    case Drain => s.(counter := 0)
    case EndDispatch => s.(pc := Swap, calling := true)
    case DoSwap => s.(pc := Running, batch := s.pending, pending := [], early := false)
    case RunOne => s.(executed := s.executed + [s.batch[0]], batch := s.batch[1..])
    case EndRound => s.(pc := Head, calling := false)
    case LoopPush(f) =>
      s.(pending := s.pending + [f], history := s.history + [f],
         selfWaking := s.calling, early := s.early || s.pc == Idle)
    case SelfWake => s.(selfWaking := false, counter := Signalled(s.counter))
    case LoopQuit => s.(quit := true)
    case ForeignPush(t, f) => s.(pending := s.pending + [f], history := s.history + [f], waking := s.waking + {t})
    case ForeignQuit(t) => s.(quit := true, waking := s.waking + {t})
    case Wake(t) => s.(waking := s.waking - {t}, counter := Signalled(s.counter))
  }

  ghost predicate Possible(s: Loop, actions: seq<Action>)
    decreases |actions|
  {
    actions != [] ==> Enabled(s, actions[0]) && Possible(Next(s, actions[0]), actions[1..])
  }

  ghost function Run(s: Loop, actions: seq<Action>): Loop
    requires Possible(s, actions)
    decreases |actions|
  {
    if actions == [] then s else Run(Next(s, actions[0]), actions[1..])
  }

  /** Somebody has woken, or is about to wake, the loop. */
  predicate WakeupDue(s: Loop) {
    s.counter > 0 || s.waking != {} || s.selfWaking
  }

  ghost predicate Inv(s: Loop) {
    && s.executed + s.batch + s.pending == s.history
    && (s.calling <==> s.pc == Swap || s.pc == Running)
    && (s.batch != [] || s.selfWaking ==> s.pc == Running)
    && (s.early ==> s.pending != [])
    && (s.pending != [] && s.pc != Dispatch && s.pc != Swap ==> WakeupDue(s) || s.early)
    && (s.quit && s.pc == Poll ==> WakeupDue(s))
  }

  lemma StepKeeps(s: Loop, a: Action)
    requires Inv(s) && Enabled(s, a)
    ensures Inv(Next(s, a))
  {
    var t := Next(s, a);
    match a
    case LoopPush(f) => assert s.executed + s.batch + (s.pending + [f]) == s.history + [f];
    case ForeignPush(u, f) =>
      assert s.executed + s.batch + (s.pending + [f]) == s.history + [f];
      assert u in t.waking;
    case ForeignQuit(u) => assert u in t.waking;
    case RunOne => assert s.executed + s.batch == t.executed + t.batch;
    case DoSwap => assert s.executed + [] + s.pending == s.executed + s.pending + [];
    case _ =>
  }

  lemma {:induction false} RunKeeps(s: Loop, actions: seq<Action>)
    requires Inv(s) && Possible(s, actions)
    ensures Inv(Run(s, actions))
    decreases |actions|
  {
    if actions != [] {
      StepKeeps(s, actions[0]);
      RunKeeps(Next(s, actions[0]), actions[1..]);
    }
  }

  // ---------- what the actions say ----------

  /** Every functor queued, by whatever thread, in order. */
  function Pushes(actions: seq<Action>): seq<Functor> {
    if actions == [] then []
    else Pushes(Init(actions)) + match Last(actions) {
      case LoopPush(f) => [f]
      case ForeignPush(_, f) => [f]
      case _ => []
    }
  }

  /** Those queued before the last swap. */
  function Swapped(actions: seq<Action>): seq<Functor> {
    if actions == [] then []
    else if Last(actions) == DoSwap then Pushes(Init(actions)) else Swapped(Init(actions))
  }

  /** Somebody called `quit()` since `loop()` was last entered. */
  predicate QuitAsked(actions: seq<Action>) {
    actions != [] && Last(actions) != Enter &&
    (Last(actions).LoopQuit? || Last(actions).ForeignQuit? || QuitAsked(Init(actions)))
  }

  /** The thread has queued or quit and not woken the loop since. */
  predicate OwesWake(actions: seq<Action>, t: Thread) {
    actions != [] &&
    match Last(actions)
    case ForeignPush(u, _) => u == t || OwesWake(Init(actions), t)
    case ForeignQuit(u) => u == t || OwesWake(Init(actions), t)
    case Wake(u) => u != t && OwesWake(Init(actions), t)
    case _ => OwesWake(Init(actions), t)
  }

  /** Wakeups since the last drain, as far as the eventfd counts them. */
  function Signals(actions: seq<Action>): nat {
    if actions == [] || Last(actions) == Drain then 0
    else if Last(actions).SelfWake? || Last(actions).Wake? then Signalled(Signals(Init(actions)))
    else Signals(Init(actions))
  }

  /** The loop thread goes on from one place to the next, and leaves only when asked to quit. */
  function LoopAt(actions: seq<Action>): Pc {
    if actions == [] then Idle
    else match Last(actions)
      case Enter => Head
      case Check => if QuitAsked(Init(actions)) then Idle else Poll
      case PollReturns => Dispatch
      case EndDispatch => Swap
      case DoSwap => Running
      case EndRound => Head
      case _ => LoopAt(Init(actions))
  }

  /** The loop thread has queued from a running functor and not woken itself since. */
  predicate OwesSelfWake(actions: seq<Action>) {
    actions != [] && Last(actions) != SelfWake &&
    ((Last(actions).LoopPush? && LoopAt(Init(actions)) == Running) || OwesSelfWake(Init(actions)))
  }

  /** The loop thread has queued outside `loop()` since the last swap. */
  predicate PushedEarly(actions: seq<Action>) {
    actions != [] && Last(actions) != DoSwap &&
    ((Last(actions).LoopPush? && LoopAt(Init(actions)) == Idle) || PushedEarly(Init(actions)))
  }

  ghost function RunOnes(actions: seq<Action>): nat {
    if actions == [] then 0 else RunOnes(Init(actions)) + (if Last(actions).RunOne? then 1 else 0)
  }

  ghost predicate QueuesTold(s: Loop, actions: seq<Action>) {
    && s.history == Pushes(actions)
    && s.executed + s.batch == Swapped(actions) && |s.executed| == RunOnes(actions)
  }

  ghost predicate LoopTold(s: Loop, actions: seq<Action>) {
    && s.pc == LoopAt(actions)
    && s.quit == QuitAsked(actions)
    && s.selfWaking == OwesSelfWake(actions)
    && s.early == PushedEarly(actions)
  }

  ghost predicate WakesTold(s: Loop, actions: seq<Action>) {
    && s.counter == Signals(actions)
    && forall t :: t in s.waking <==> OwesWake(actions, t)
  }

  /** The state is what the actions say. */
  ghost predicate Told(s: Loop, actions: seq<Action>) {
    QueuesTold(s, actions) && LoopTold(s, actions) && WakesTold(s, actions)
  }

  lemma StepTold(s: Loop, actions: seq<Action>)
    requires actions != [] && Inv(s) && Told(s, Init(actions)) && Enabled(s, Last(actions))
    ensures Told(Next(s, Last(actions)), actions)
  {
    hide Inv, Next, Enabled, QueuesTold, LoopTold, WakesTold;
    StepQueuesTold(s, actions);
    StepLoopTold(s, actions);
    StepWakesTold(s, actions);
  }

  lemma StepQueuesTold(s: Loop, actions: seq<Action>)
    requires actions != [] && Inv(s) && QueuesTold(s, Init(actions)) && Enabled(s, Last(actions))
    ensures QueuesTold(Next(s, Last(actions)), actions)
  {
    if Last(actions) == RunOne {
      assert s.executed + [s.batch[0]] + s.batch[1..] == s.executed + s.batch;
    }
    if Last(actions) == DoSwap {
      assert s.executed + [] + s.pending == s.executed + s.pending;
    }
  }

  lemma StepLoopTold(s: Loop, actions: seq<Action>)
    requires actions != [] && Inv(s) && LoopTold(s, Init(actions)) && Enabled(s, Last(actions))
    ensures LoopTold(Next(s, Last(actions)), actions)
  {
  }

  lemma StepWakesTold(s: Loop, actions: seq<Action>)
    requires actions != [] && WakesTold(s, Init(actions)) && Enabled(s, Last(actions))
    ensures WakesTold(Next(s, Last(actions)), actions)
  {
  }

  lemma {:induction false} RunSnoc(s: Loop, actions: seq<Action>)
    requires actions != [] && Possible(s, actions)
    ensures Possible(s, Init(actions)) && Enabled(Run(s, Init(actions)), Last(actions))
    ensures Run(s, actions) == Next(Run(s, Init(actions)), Last(actions))
    decreases |actions|
  {
    if |actions| > 1 {
      assert Init(actions)[1..] == Init(actions[1..]);
      RunSnoc(Next(s, actions[0]), actions[1..]);
    } else {
      assert actions[1..] == [];
    }
  }

  /** After every run the state is what the actions say: who queued what, what has been swapped out and
      run, who owes a wakeup, and where the loop thread is. */
  lemma {:induction false} RunIsTold(actions: seq<Action>)
    requires Possible(START, actions)
    ensures Told(Run(START, actions), actions)
    decreases |actions|
  {
    if actions != [] {
      RunSnoc(START, actions);
      RunIsTold(Init(actions));
      RunKeeps(START, Init(actions));
      StepTold(Run(START, Init(actions)), actions);
    }
  }

  // ---------- the theorems ----------

  /** No lost wakeup.  In every interleaving: whenever the loop sits in poll with a silent eventfd and
      no thread on its way to `wakeup`, nobody has asked it to quit, and functors are waiting exactly
      when the loop thread itself queued one outside `loop()` since the last swap. */
  lemma NoLostWakeup(actions: seq<Action>)
    requires Possible(START, actions)
    ensures var s := Run(START, actions);
            s.pc == Poll && s.counter == 0 && s.waking == {} ==> !s.quit && (s.pending != [] <==> s.early)
    ensures LoopAt(actions) == Poll && Signals(actions) == 0 && (forall t :: !OwesWake(actions, t)) ==>
              !QuitAsked(actions) && (|Swapped(actions)| < |Pushes(actions)| <==> PushedEarly(actions))
  {
    RunKeeps(START, actions);
    RunIsTold(actions);
    var s := Run(START, actions);
    assert (forall t :: !OwesWake(actions, t)) ==> s.waking == {};
  }

  /** The loop thread queues only from event handlers and functors. */
  ghost predicate QueuesInsideLoop(s: Loop, actions: seq<Action>)
    requires Possible(s, actions)
    decreases |actions|
  {
    actions != [] ==>
      !(s.pc == Idle && actions[0].LoopPush?) && QueuesInsideLoop(Next(s, actions[0]), actions[1..])
  }

  lemma {:induction false} NeverEarly(s: Loop, actions: seq<Action>)
    requires !s.early && Possible(s, actions) && QueuesInsideLoop(s, actions)
    ensures !Run(s, actions).early
    decreases |actions|
  {
    if actions != [] {
      NeverEarly(Next(s, actions[0]), actions[1..]);
    }
  }

  /** With the loop thread queueing only inside `loop()`, it never blocks on a waiting functor. */
  lemma NeverBlocksOnWork(actions: seq<Action>)
    requires Possible(START, actions) && QueuesInsideLoop(START, actions)
    ensures var s := Run(START, actions); s.pc == Poll && s.pending != [] ==> WakeupDue(s)
  {
    RunKeeps(START, actions);
    NeverEarly(START, actions);
  }

  /** A functor queued by the loop thread before `loop()` waits through the first poll, unannounced. */
  lemma EarlyPushIsNotAnnounced(f: Functor)
    ensures var actions := [LoopPush(f), Enter, Check];
            && Possible(START, actions)
            && Run(START, actions).pc == Poll && Run(START, actions).pending == [f] && !WakeupDue(Run(START, actions))
  {
    var s1 := Next(START, LoopPush(f));
    var s2 := Next(s1, Enter);
    var s3 := Next(s2, Check);
    var a1, a2 := [Enter, Check], [Check];
    assert [LoopPush(f), Enter, Check][1..] == a1 && a1[1..] == a2 && a2[1..] == [];
    assert Possible(s3, []) && Run(s3, []) == s3;
    assert Possible(s2, a2) && Run(s2, a2) == s3;
    assert Possible(s1, a1) && Run(s1, a1) == s3;
  }

  /** Exactly once, in order: what has run, what is left of the batch and what is pending make up, in
      that order, all the functors that the actions queued; those run are the first ones, one for each
      `RunOne`, and those swapped out are all that were queued before the last swap. */
  lemma FifoExactlyOnce(actions: seq<Action>)
    requires Possible(START, actions)
    ensures var s := Run(START, actions);
            && s.executed + s.batch + s.pending == Pushes(actions)
            && s.executed + s.batch == Swapped(actions)
            && |s.executed| == RunOnes(actions)
  {
    RunKeeps(START, actions);
    RunIsTold(actions);
  }

  lemma StepInRound(s: Loop, a: Action)
    requires s.pc == Running && Enabled(s, a) && a != EndRound
    ensures var t := Next(s, a);
            && t.pc == Running
            && t.executed + t.batch == s.executed + s.batch
            && |t.batch| + (if a.RunOne? then 1 else 0) == |s.batch|
            && s.pending <= t.pending
  {
    if a.RunOne? {
      assert [s.batch[0]] + s.batch[1..] == s.batch;
      assert s.executed + [s.batch[0]] + s.batch[1..] == s.executed + s.batch;
    }
  }

  /** Within a round nothing is added to its batch, whatever is queued meanwhile: the functors it runs
      are the first ones of the batch it swapped out, one for each `RunOne`. */
  lemma {:induction false} RoundIsFixed(s: Loop, actions: seq<Action>)
    requires s.pc == Running && Possible(s, actions) && EndRound !in actions
    ensures var t := Run(s, actions);
            && t.pc == Running
            && t.executed + t.batch == s.executed + s.batch
            && |t.batch| + RunOnes(actions) == |s.batch|
            && s.pending <= t.pending
    decreases |actions|
  {
    if actions != [] {
      RunSnoc(s, actions);
      assert forall a :: a in Init(actions) ==> a in actions;
      RoundIsFixed(s, Init(actions));
      assert Last(actions) in actions;
      StepInRound(Run(s, Init(actions)), Last(actions));
    }
  }

  /** When a round ends, exactly what had been queued before its swap has been run. */
  lemma RoundCompletes(before: seq<Action>, round: seq<Action>)
    requires Possible(START, before + [DoSwap]) && EndRound !in round
    requires Possible(Run(START, before + [DoSwap]), round)
    requires Enabled(Run(Run(START, before + [DoSwap]), round), EndRound)
    ensures Run(Run(START, before + [DoSwap]), round).executed == Pushes(before)
    ensures RunOnes(before) + RunOnes(round) == |Pushes(before)|
  {
    var actions := before + [DoSwap];
    assert Init(actions) == before;
    RunSnoc(START, actions);
    RunIsTold(before);
    RunIsTold(actions);
    var s := Run(START, actions);
    RoundIsFixed(s, round);
    var t := Run(s, round);
    assert t.executed == t.executed + t.batch == s.executed + s.batch;
  }

  /** As written the drain is bound to write readiness, which is never enabled: once the eventfd has
      been signalled it stays readable, and no later poll blocks. */
  lemma {:induction false} WithoutDrainStaysAwake(s: Loop, actions: seq<Action>)
    requires Possible(s, actions) && Drain !in actions && s.counter > 0
    ensures Run(s, actions).counter >= s.counter
    decreases |actions|
  {
    if actions != [] {
      assert actions[0] in actions;
      assert forall a :: a in actions[1..] ==> a in actions;
      WithoutDrainStaysAwake(Next(s, actions[0]), actions[1..]);
    }
  }
}

/** The loop thread's own part, when no other thread interferes. */
module EventLoops {
  import opened EventLoop

  /** What running `functors` one after the other queues, given what each of them queues. */
  function Queued(body: Functor -> seq<Functor>, functors: seq<Functor>): seq<Functor> {
    if functors == [] then [] else Queued(body, functors[..|functors| - 1]) + body(functors[|functors| - 1])
  }

  lemma QueuedStep(body: Functor -> seq<Functor>, functors: seq<Functor>, i: nat)
    requires i < |functors|
    ensures Queued(body, functors[..i + 1]) == Queued(body, functors[..i]) + body(functors[i])
    ensures functors[..i + 1] == functors[..i] + [functors[i]]
    ensures functors[i..][1..] == functors[i + 1..]
  {
    assert functors[..i + 1][..i] == functors[..i];
  }

  /** Functors run after others queue after them. */
  lemma {:induction false} QueuedInOrder(body: Functor -> seq<Functor>, a: seq<Functor>, b: seq<Functor>)
    ensures Queued(body, a + b) == Queued(body, a) + Queued(body, b)
    ensures forall f :: Queued(body, [f]) == body(f)
    decreases |b|
  {
    forall f ensures Queued(body, [f]) == body(f) {
      assert [f][..0] == [] && Queued(body, []) == [];
    }
    if b == [] {
      assert a + b == a;
    } else {
      var n := |b| - 1;
      QueuedInOrder(body, a, b[..n]);
      assert (a + b)[..|a + b| - 1] == a + b[..n];
    }
  }

  class LoopThread {
    var quit: bool
    var callingPendingFunctors: bool
    var pendingFunctors: seq<Functor>
    var eventfd: nat
    ghost var pc: Pc
    ghost var batch: seq<Functor>
    ghost var executed: seq<Functor>
    ghost var history: seq<Functor>
    ghost var early: bool

    ghost function State(): Loop
      reads this
    {
      Loop(pc, quit, callingPendingFunctors, pendingFunctors, batch, executed, history, eventfd, {}, false, early)
    }

    constructor ()
      ensures State() == START
    {
      quit, callingPendingFunctors, pendingFunctors, eventfd := false, false, [], 0;
      pc, batch, executed, history, early := Idle, [], [], [], false;
    }

    method Wakeup()
      modifies `eventfd
      ensures eventfd == Signalled(old(eventfd))
    {
      if eventfd < EVENTFD_MAX {
        eventfd := eventfd + 1;
      }
    }

    /** Two steps of the machine while functors are being called, otherwise one. */
    method QueueInLoop(f: Functor)
      requires InUserCode(State())
      modifies `pendingFunctors, `history, `eventfd, `early
      ensures var pushed := Next(old(State()), LoopPush(f));
              State() == if pushed.selfWaking then Next(pushed, SelfWake) else pushed
    {
      pendingFunctors := pendingFunctors + [f];
      history := history + [f];
      early := early || pc == Idle;
      if callingPendingFunctors {
        Wakeup();
      }
    }

    /** Runs what was pending, each functor once and in order; what they queue, even for themselves,
        is left pending, and the eventfd has been signalled for it. */
    method DoPendingFunctors(body: Functor -> seq<Functor>)
      requires pc == Dispatch && Inv(State())
      modifies this
      ensures pc == Head && Inv(State()) && quit == old(quit)
      ensures executed == old(executed) + old(pendingFunctors)
      ensures pendingFunctors == Queued(body, old(pendingFunctors))
      ensures pendingFunctors != [] ==> eventfd > 0
    {
      hide Inv, Next, Enabled;
      var functors := SwapOut();
      var i := 0;
      while i < |functors|
        invariant 0 <= i <= |functors|
        invariant pc == Running && Inv(State()) && !early && quit == old(quit)
        invariant batch == functors[i..] && executed == old(executed) + functors[..i]
        invariant pendingFunctors == Queued(body, functors[..i])
      {
        CallFunctor(functors[i], body(functors[i]));
        QueuedStep(body, functors, i);
        i := i + 1;
      }
      assert functors[..i] == functors;
      FinishRound();
    }

    method FinishRound()
      requires pc == Running && batch == [] && Inv(State()) && !early
      modifies `callingPendingFunctors, `pc
      ensures pc == Head && Inv(State())
      ensures pendingFunctors != [] ==> eventfd > 0
    {
      StepKeeps(State(), EndRound);
      callingPendingFunctors, pc := false, Head;
      WokenAtHead();
    }

    lemma WokenAtHead()
      requires pc == Head && Inv(State()) && !early
      ensures pendingFunctors != [] ==> eventfd > 0
    {
    }

    method SwapOut() returns (functors: seq<Functor>)
      requires pc == Dispatch && Inv(State())
      modifies `callingPendingFunctors, `pendingFunctors, `batch, `early, `pc
      ensures pc == Running && Inv(State()) && !early
      ensures functors == batch == old(pendingFunctors) && pendingFunctors == []
    {
      StepKeeps(State(), EndDispatch);
      callingPendingFunctors, pc := true, Swap;
      StepKeeps(State(), DoSwap);
      functors := pendingFunctors;
      pendingFunctors := [];
      batch, early, pc := functors, false, Running;
    }

    /** Runs the next functor of the batch, which queues `functors`. */
    method CallFunctor(f: Functor, functors: seq<Functor>)
      requires pc == Running && Inv(State()) && batch != [] && batch[0] == f
      modifies `executed, `batch, `pendingFunctors, `history, `eventfd, `early
      ensures Inv(State()) && early == old(early)
      ensures executed == old(executed) + [f] && batch == old(batch)[1..]
      ensures pendingFunctors == old(pendingFunctors) + functors
    {
      StepKeeps(State(), RunOne);
      executed, batch := executed + [f], batch[1..];
      QueueAll(functors);
    }

    method QueueAll(functors: seq<Functor>)
      requires pc == Running && Inv(State())
      modifies `pendingFunctors, `history, `eventfd, `early
      ensures Inv(State()) && early == old(early)
      ensures pendingFunctors == old(pendingFunctors) + functors
    {
      hide Inv;
      var i := 0;
      while i < |functors|
        invariant 0 <= i <= |functors|
        invariant Inv(State()) && early == old(early)
        invariant pendingFunctors == old(pendingFunctors) + functors[..i]
      {
        StepKeeps(State(), LoopPush(functors[i]));
        NotSelfWaking();
        StepKeeps(Next(State(), LoopPush(functors[i])), SelfWake);
        QueueInLoop(functors[i]);
        i := i + 1;
      }
    }

    lemma NotSelfWaking()
      requires pc == Running && Inv(State())
      ensures callingPendingFunctors && !State().selfWaking
    {
    }
  }
}
