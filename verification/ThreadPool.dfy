/** The bounded thread pool (RN/base/ThreadPool.cpp): one mutex, a condition for each direction.

A step is what one thread does in one critical section, ending where it waits or leaves.  A signal
wakes at least one sleeper if there is any, perhaps more, and sleepers may wake for no reason at all.
*/
module ThreadPool {
  import opened Sequences

  type Task = nat
  type Tid = nat

  /** A busy worker holds the task that was the `ticket`-th to be taken. */
  datatype Worker = AtHead | Entering | Sleeping | Woken | Busy(ticket: nat) | Exited

  /** A thread inside `post`: before the mutex, waiting on `notFull_`, or woken there. */
  datatype Poster = Posting(task: Task) | Blocked(task: Task) | Roused(task: Task)

  datatype Pool = Pool(
    max: int,                 // maxQueueSize_
    running: bool,
    queue: seq<Task>,
    workers: map<Tid, Worker>,
    posters: map<Tid, Poster>,
    posted: seq<Task>,        // every task accepted by post, in order
    taken: seq<Task>,         // every task handed out by take, in order
    done: set<nat>)           // tickets of the tasks that returned

  datatype Action =
    | ReadRunning(w: Tid)                // `while (running_)`
    | Take(w: Tid, roused: set<Tid>)     // one pass through the critical section of take
    | Finish(w: Tid)
    | Arrive(p: Tid, task: Task)
    | Post(p: Tid, woken: set<Tid>)      // one pass through the critical section of post
    | PostInline(task: Task)             // post without threads
    | SpuriousWake(w: Tid)
    | SpuriousRouse(p: Tid)
    | Stop                               // the critical section of stop

  function Sleepers(s: Pool): set<Tid> {
    set w | w in s.workers && s.workers[w] == Sleeping
  }

  function WokenWorkers(s: Pool): set<Tid> {
    set w | w in s.workers && s.workers[w] == Woken
  }

  function BlockedPosters(s: Pool): set<Tid> {
    set p | p in s.posters && s.posters[p].Blocked?
  }

  function RousedPosters(s: Pool): set<Tid> {
    set p | p in s.posters && s.posters[p].Roused?
  }

  predicate IsFull(s: Pool) {
    s.max > 0 && |s.queue| >= s.max
  }

  /** What a signal may do to those asleep on its condition. */
  predicate Signals(woken: set<Tid>, asleep: set<Tid>) {
    woken <= asleep && (asleep != {} ==> woken != {})
  }

  function WakeWorkers(workers: map<Tid, Worker>, woken: set<Tid>): map<Tid, Worker> {
    map w | w in workers :: if w in woken then Woken else workers[w]
  }

  function RousePosters(posters: map<Tid, Poster>, roused: set<Tid>): map<Tid, Poster> {
    map p | p in posters :: if p in roused then Roused(posters[p].task) else posters[p]
  }

  predicate Enabled(s: Pool, a: Action) {
    match a
    case ReadRunning(w) => w in s.workers && s.workers[w] == AtHead
    case Take(w, roused) =>
      w in s.workers && (s.workers[w] == Entering || s.workers[w] == Woken) && Signals(roused, BlockedPosters(s))
    case Finish(w) => w in s.workers && s.workers[w].Busy?
    case Arrive(p, _) => p !in s.posters && s.workers != map[]
    case Post(p, woken) => p in s.posters && !s.posters[p].Blocked? && Signals(woken, Sleepers(s))
    case PostInline(_) => s.workers == map[]
    case SpuriousWake(w) => w in Sleepers(s)
    case SpuriousRouse(p) => p in BlockedPosters(s)
    case Stop => true
  }

  function Next(s: Pool, a: Action): Pool
    requires Enabled(s, a)
  {
    match a
    case ReadRunning(w) => s.(workers := s.workers[w := if s.running then Entering else Exited])
    case Take(w, roused) =>
      if s.queue == [] then
        s.(workers := s.workers[w := if s.running then Sleeping else AtHead])
      else
        s.(workers := s.workers[w := Busy(|s.taken|)], queue := s.queue[1..], taken := s.taken + [s.queue[0]],
           posters := if s.max > 0 then RousePosters(s.posters, roused) else s.posters)
    case Finish(w) => s.(workers := s.workers[w := AtHead], done := s.done + {s.workers[w].ticket})
    case Arrive(p, task) => s.(posters := s.posters[p := Posting(task)])
    case Post(p, woken) =>
      if IsFull(s) then s.(posters := s.posters[p := Blocked(s.posters[p].task)])
      else
        s.(queue := s.queue + [s.posters[p].task], posted := s.posted + [s.posters[p].task],
           posters := s.posters - {p}, workers := WakeWorkers(s.workers, woken))
    case PostInline(task) =>
      s.(posted := s.posted + [task], taken := s.taken + [task], done := s.done + {|s.taken|})
    case SpuriousWake(w) => s.(workers := s.workers[w := Woken])
    case SpuriousRouse(p) => s.(posters := s.posters[p := Roused(s.posters[p].task)])
    case Stop => s.(running := false, workers := WakeWorkers(s.workers, Sleepers(s)))
  }

  ghost predicate Possible(s: Pool, actions: seq<Action>)
    decreases |actions|
  {
    actions != [] ==> Enabled(s, actions[0]) && Possible(Next(s, actions[0]), actions[1..])
  }

  ghost function Run(s: Pool, actions: seq<Action>): Pool
    requires Possible(s, actions)
    decreases |actions|
  {
    if actions == [] then s else Run(Next(s, actions[0]), actions[1..])
  }

  /** The pool after `start`, its threads about to enter their loops. */
  function Started(max: int, threads: set<Tid>): Pool {
    Pool(max, true, [], map w | w in threads :: AtHead, map[], [], [], {})
  }

  // ---------- the invariant ----------

  /** No worker sleeps while a task is waiting that nobody has been woken for. */
  ghost predicate WorkersAdequate(s: Pool) {
    && (s.running && Sleepers(s) != {} ==> |s.queue| <= |WokenWorkers(s)|)
    && (!s.running ==> Sleepers(s) == {})
  }

  /** No poster waits while a slot is free that nobody has been roused for. */
  ghost predicate PostersAdequate(s: Pool) {
    && (s.max > 0 ==> |s.queue| <= s.max)
    && (BlockedPosters(s) != {} ==> s.max > 0 && s.max - |s.queue| <= |RousedPosters(s)|)
  }

  /** Every ticket handed out is finished or in the hands of exactly one worker. */
  ghost predicate OneHolder(s: Pool) {
    && (forall k :: k in s.done ==> k < |s.taken|)
    && (forall w :: w in s.workers && s.workers[w].Busy? ==>
          s.workers[w].ticket < |s.taken| && s.workers[w].ticket !in s.done)
    && (forall v, w :: v in s.workers && w in s.workers && s.workers[v].Busy? && s.workers[v] == s.workers[w] ==>
          v == w)
    && (forall k: nat :: k < |s.taken| && k !in s.done ==> Held(s, k))
  }

  ghost predicate Held(s: Pool, k: nat) {
    exists w :: w in s.workers && s.workers[w] == Busy(k)
  }

  ghost predicate Inv(s: Pool) {
    && s.posted == s.taken + s.queue
    && (s.workers == map[] ==> s.queue == [] && s.posters == map[])
    && WorkersAdequate(s)
    && PostersAdequate(s)
    && OneHolder(s)
  }

  // ---------- steps ----------

  /** Moving a worker from one place to another moves it between the sets of sleepers and woken. */
  lemma MoveWorker(s: Pool, t: Pool, w: Tid, to: Worker)
    requires w in s.workers && t.workers == s.workers[w := to]
    ensures Sleepers(t) == if to == Sleeping then Sleepers(s) + {w} else Sleepers(s) - {w}
    ensures WokenWorkers(t) == if to == Woken then WokenWorkers(s) + {w} else WokenWorkers(s) - {w}
  {
  }

  lemma MovePoster(s: Pool, t: Pool, p: Tid, to: Poster)
    requires t.posters == s.posters[p := to]
    ensures BlockedPosters(t) == if to.Blocked? then BlockedPosters(s) + {p} else BlockedPosters(s) - {p}
    ensures RousedPosters(t) == if to.Roused? then RousedPosters(s) + {p} else RousedPosters(s) - {p}
  {
  }

  lemma WakeSets(s: Pool, t: Pool, woken: set<Tid>)
    requires woken <= Sleepers(s) && t.workers == WakeWorkers(s.workers, woken)
    ensures Sleepers(t) == Sleepers(s) - woken && WokenWorkers(t) == WokenWorkers(s) + woken
    ensures |WokenWorkers(t)| == |WokenWorkers(s)| + |woken|
  {
    assert WokenWorkers(s) !! woken;
  }

  lemma RouseSets(s: Pool, t: Pool, roused: set<Tid>)
    requires roused <= BlockedPosters(s) && t.posters == RousePosters(s.posters, roused)
    ensures BlockedPosters(t) == BlockedPosters(s) - roused && RousedPosters(t) == RousedPosters(s) + roused
    ensures |RousedPosters(t)| == |RousedPosters(s)| + |roused|
  {
    assert RousedPosters(s) !! roused;
  }

  lemma NonEmpty(a: set<Tid>)
    requires a != {}
    ensures |a| >= 1
  {
    var x :| x in a;
    assert |a - {x}| == |a| - 1;
  }

  lemma TakeKeeps(s: Pool, w: Tid, roused: set<Tid>)
    requires Inv(s) && Enabled(s, Take(w, roused))
    ensures WorkersAdequate(Next(s, Take(w, roused))) && PostersAdequate(Next(s, Take(w, roused)))
  {
    hide OneHolder;
    var t := Next(s, Take(w, roused));
    MoveWorker(s, t, w, t.workers[w]);
    if s.queue != [] {
      if s.max > 0 {
        RouseSets(s, t, roused);
        if BlockedPosters(s) != {} {
          NonEmpty(roused);
        }
      }
    }
  }

  lemma PostWaits(s: Pool, p: Tid, woken: set<Tid>)
    requires WorkersAdequate(s) && PostersAdequate(s) && Enabled(s, Post(p, woken)) && IsFull(s)
    ensures WorkersAdequate(Next(s, Post(p, woken))) && PostersAdequate(Next(s, Post(p, woken)))
  {
    var t := Next(s, Post(p, woken));
    MovePoster(s, t, p, t.posters[p]);
  }

  lemma PostPushes(s: Pool, p: Tid, woken: set<Tid>)
    requires WorkersAdequate(s) && PostersAdequate(s) && Enabled(s, Post(p, woken)) && !IsFull(s)
    ensures WorkersAdequate(Next(s, Post(p, woken))) && PostersAdequate(Next(s, Post(p, woken)))
  {
    var t := Next(s, Post(p, woken));
    WakeSets(s, t, woken);
    if Sleepers(s) != {} {
      NonEmpty(woken);
    }
    LeavePost(s, t, p);
  }

  lemma LeavePost(s: Pool, t: Pool, p: Tid)
    requires p in s.posters && !s.posters[p].Blocked? && t.posters == s.posters - {p}
    ensures BlockedPosters(t) == BlockedPosters(s)
    ensures |RousedPosters(t)| >= |RousedPosters(s)| - 1
  {
    assert RousedPosters(t) == RousedPosters(s) - {p};
  }

  lemma WorkerMoveKeeps(s: Pool, a: Action)
    requires WorkersAdequate(s) && PostersAdequate(s) && Enabled(s, a)
    requires a.ReadRunning? || a.Finish? || a.SpuriousWake?
    ensures WorkersAdequate(Next(s, a)) && PostersAdequate(Next(s, a))
  {
    var t := Next(s, a);
    MoveWorker(s, t, a.w, t.workers[a.w]);
    assert |WokenWorkers(s) + {a.w}| >= |WokenWorkers(s)|;
    assert a.w !in WokenWorkers(s);
  }

  lemma PosterMoveKeeps(s: Pool, a: Action)
    requires WorkersAdequate(s) && PostersAdequate(s) && Enabled(s, a)
    requires a.Arrive? || a.SpuriousRouse?
    ensures WorkersAdequate(Next(s, a)) && PostersAdequate(Next(s, a))
  {
    var t := Next(s, a);
    MovePoster(s, t, a.p, t.posters[a.p]);
    assert a.p !in RousedPosters(s);
  }

  lemma StopKeeps(s: Pool)
    requires WorkersAdequate(s) && PostersAdequate(s)
    ensures WorkersAdequate(Next(s, Stop)) && PostersAdequate(Next(s, Stop))
  {
    WakeSets(s, Next(s, Stop), Sleepers(s));
  }

  lemma AdequacyKept(s: Pool, a: Action)
    requires Inv(s) && Enabled(s, a)
    ensures WorkersAdequate(Next(s, a)) && PostersAdequate(Next(s, a))
  {
    hide OneHolder;
    match a
    case Take(w, roused) => TakeKeeps(s, w, roused);
    case Post(p, woken) => if IsFull(s) { PostWaits(s, p, woken); } else { PostPushes(s, p, woken); }
    case Stop => StopKeeps(s);
    case PostInline(task) =>
    case Arrive(p, task) => PosterMoveKeeps(s, a);
    case SpuriousRouse(p) => PosterMoveKeeps(s, a);
    case _ => WorkerMoveKeeps(s, a);
  }

  /** Ticket numbers survive every change of workers that leaves the busy ones busy. */
  lemma HoldersUntouched(s: Pool, t: Pool)
    requires OneHolder(s) && t.taken == s.taken && t.done == s.done && t.workers.Keys == s.workers.Keys
    requires forall w :: w in s.workers && (s.workers[w].Busy? || t.workers[w].Busy?) ==> t.workers[w] == s.workers[w]
    ensures OneHolder(t)
  {
    forall k: nat | k < |t.taken| && k !in t.done ensures Held(t, k) {
      assert Held(s, k);
    }
  }

  lemma TicketTaken(s: Pool, t: Pool, w: Tid, task: Task)
    requires OneHolder(s) && w in s.workers && !s.workers[w].Busy?
    requires t.workers == s.workers[w := Busy(|s.taken|)] && t.taken == s.taken + [task] && t.done == s.done
    ensures OneHolder(t)
  {
    forall k: nat | k < |t.taken| && k !in t.done ensures Held(t, k) {
      if k < |s.taken| {
        assert Held(s, k);
        var v :| v in s.workers && s.workers[v] == Busy(k);
        assert t.workers[v] == Busy(k);
      } else {
        assert t.workers[w] == Busy(k);
      }
    }
  }

  lemma TicketDone(s: Pool, t: Pool, w: Tid)
    requires OneHolder(s) && w in s.workers && s.workers[w].Busy?
    requires t.workers == s.workers[w := AtHead] && t.taken == s.taken && t.done == s.done + {s.workers[w].ticket}
    ensures OneHolder(t)
  {
    forall k: nat | k < |t.taken| && k !in t.done ensures Held(t, k) {
      assert Held(s, k);
      var v :| v in s.workers && s.workers[v] == Busy(k);
      assert t.workers[v] == Busy(k);
    }
  }

  lemma TicketInline(s: Pool, t: Pool, task: Task)
    requires OneHolder(s) && t.workers == s.workers
    requires t.taken == s.taken + [task] && t.done == s.done + {|s.taken|}
    ensures OneHolder(t)
  {
    forall k: nat | k < |t.taken| && k !in t.done ensures Held(t, k) {
      assert Held(s, k);
    }
  }

  lemma HoldersKept(s: Pool, a: Action)
    requires Inv(s) && Enabled(s, a)
    ensures OneHolder(Next(s, a))
  {
    hide OneHolder;
    var t := Next(s, a);
    match a
    case Take(w, roused) =>
      if s.queue != [] {
        TicketTaken(s, t, w, s.queue[0]);
      } else {
        HoldersUntouched(s, t);
      }
    case Finish(w) => TicketDone(s, t, w);
    case PostInline(task) => TicketInline(s, t, task);
    case _ => HoldersUntouched(s, t);
  }

  lemma StepKeeps(s: Pool, a: Action)
    requires Inv(s) && Enabled(s, a)
    ensures Inv(Next(s, a))
  {
    hide OneHolder, WorkersAdequate, PostersAdequate;
    HoldersKept(s, a);
    AdequacyKept(s, a);
    var t := Next(s, a);
    assert t.workers.Keys == s.workers.Keys;
    match a
    case Take(w, roused) =>
      if s.queue != [] {
        assert s.taken + s.queue == s.taken + [s.queue[0]] + s.queue[1..];
      }
    case Post(p, woken) =>
      assert p in s.posters;
      assert s.taken + (s.queue + [s.posters[p].task]) == s.taken + s.queue + [s.posters[p].task];
    case _ =>
  }

  lemma {:induction false} RunKeeps(s: Pool, actions: seq<Action>)
    requires Inv(s) && Possible(s, actions)
    ensures Inv(Run(s, actions))
    decreases |actions|
  {
    if actions != [] {
      StepKeeps(s, actions[0]);
      RunKeeps(Next(s, actions[0]), actions[1..]);
    }
  }

  // ---------- what the actions say ----------

  /** The task with which the thread last called `post`. */
  function Brought(actions: seq<Action>, p: Tid): Task {
    if actions == [] then 0
    else if Last(actions).Arrive? && Last(actions).p == p then Last(actions).task
    else Brought(Init(actions), p)
  }

  /** The tasks accepted, in order: each one that a thread brought and found room for. */
  function Posted(max: int, actions: seq<Action>): seq<Task>
    decreases |actions|, 0
  {
    if actions == [] then []
    else match Last(actions)
      case Post(p, _) =>
        Posted(max, Init(actions)) + (if Full(max, Init(actions)) then [] else [Brought(Init(actions), p)])
      case PostInline(task) => Posted(max, Init(actions)) + [task]
      case _ => Posted(max, Init(actions))
  }

  /** How many of them were handed out. */
  function Takes(max: int, actions: seq<Action>): nat
    decreases |actions|, 0
  {
    if actions == [] then 0
    else match Last(actions)
      case Take(_, _) => Takes(max, Init(actions)) + (if Waits(max, Init(actions)) then 1 else 0)
      case PostInline(_) => Takes(max, Init(actions)) + 1
      case _ => Takes(max, Init(actions))
  }

  predicate Waits(max: int, actions: seq<Action>)
    decreases |actions|, 1
  {
    Takes(max, actions) < |Posted(max, actions)|
  }

  predicate Full(max: int, actions: seq<Action>)
    decreases |actions|, 1
  {
    max > 0 && |Posted(max, actions)| - Takes(max, actions) >= max
  }

  /** Where a thread of the pool is after action `a`, given where it was. */
  function WorkerMoves(max: int, before: seq<Action>, a: Action, w: Tid, was: Worker): Worker {
    match a
    case ReadRunning(v) => if v != w then was else if Stop in before then Exited else Entering
    case Take(v, _) =>
      if v != w then was
      else if Waits(max, before) then Busy(Takes(max, before))
      else if Stop in before then AtHead else Sleeping
    case Finish(v) => if v == w then AtHead else was
    case SpuriousWake(v) => if v == w then Woken else was
    case Post(_, woken) => if w in woken && !Full(max, before) then Woken else was
    case Stop => if was == Sleeping then Woken else was
    case _ => was
  }

  function WorkerAt(max: int, actions: seq<Action>, w: Tid): Worker {
    if actions == [] then AtHead
    else WorkerMoves(max, Init(actions), Last(actions), w, WorkerAt(max, Init(actions), w))
  }

  datatype Whereabouts = Outside | Inside(poster: Poster)

  /** Where a thread is that may call `post`, and with which task. */
  function PosterMoves(max: int, before: seq<Action>, a: Action, p: Tid, was: Whereabouts): Whereabouts {
    match a
    case Arrive(q, task) => if q == p then Inside(Posting(task)) else was
    case Post(q, _) =>
      if q != p then was else if Full(max, before) then Inside(Blocked(Brought(before, p))) else Outside
    case Take(_, roused) =>
      if p in roused && max > 0 && Waits(max, before) then Inside(Roused(Brought(before, p))) else was
    case SpuriousRouse(q) => if q == p then Inside(Roused(Brought(before, p))) else was
    case _ => was
  }

  function PosterAt(max: int, actions: seq<Action>, p: Tid): Whereabouts {
    if actions == [] then Outside
    else PosterMoves(max, Init(actions), Last(actions), p, PosterAt(max, Init(actions), p))
  }

  ghost predicate TasksTold(s: Pool, max: int, actions: seq<Action>) {
    && s.max == max && (s.running <==> Stop !in actions)
    && s.posted == Posted(max, actions) && |s.taken| == Takes(max, actions)
  }

  ghost predicate WorkersTold(s: Pool, threads: set<Tid>, actions: seq<Action>) {
    && s.workers.Keys == threads
    && forall w :: w in threads ==> s.workers[w] == WorkerAt(s.max, actions, w)
  }

  ghost predicate PostersTold(s: Pool, actions: seq<Action>) {
    forall p: Tid ::
      && (p in s.posters <==> PosterAt(s.max, actions, p).Inside?)
      && (p in s.posters ==>
            && s.posters[p] == PosterAt(s.max, actions, p).poster
            && s.posters[p].task == Brought(actions, p))
  }

  /** The state is what the actions say. */
  ghost predicate Told(s: Pool, max: int, threads: set<Tid>, actions: seq<Action>) {
    TasksTold(s, max, actions) && WorkersTold(s, threads, actions) && PostersTold(s, actions)
  }

  lemma FullTold(s: Pool, max: int, actions: seq<Action>)
    requires Inv(s) && TasksTold(s, max, actions)
    ensures IsFull(s) <==> Full(max, actions)
    ensures s.queue != [] <==> Waits(max, actions)
  {
  }

  lemma StepTasksTold(s: Pool, max: int, actions: seq<Action>)
    requires actions != [] && Inv(s) && Enabled(s, Last(actions))
    requires TasksTold(s, max, Init(actions)) && PostersTold(s, Init(actions))
    ensures TasksTold(Next(s, Last(actions)), max, actions)
  {
    hide WorkersAdequate, PostersAdequate, OneHolder, PostersTold, Signals, WakeWorkers, RousePosters;
    FullTold(s, max, Init(actions));
    if Last(actions).Post? {
      HoldsBrought(s, Init(actions), Last(actions).p);
    }
    assert actions == Init(actions) + [Last(actions)];
  }

  lemma HoldsBrought(s: Pool, actions: seq<Action>, p: Tid)
    requires PostersTold(s, actions) && p in s.posters
    ensures s.posters[p].task == Brought(actions, p)
  {
  }

  lemma StepWorkersTold(s: Pool, max: int, threads: set<Tid>, actions: seq<Action>)
    requires actions != [] && Inv(s) && Enabled(s, Last(actions))
    requires TasksTold(s, max, Init(actions)) && WorkersTold(s, threads, Init(actions))
    ensures WorkersTold(Next(s, Last(actions)), threads, actions)
  {
    hide Inv, Next, WorkerMoves, Waits, Full;
    FullTold(s, max, Init(actions));
    forall w | w in threads ensures WorkerAt(max, actions, w) ==
                                    WorkerMoves(max, Init(actions), Last(actions), w, s.workers[w]) {
    }
    WorkersMove(s, max, Init(actions), Last(actions));
  }

  lemma WorkersMove(s: Pool, max: int, before: seq<Action>, a: Action)
    requires Enabled(s, a) && (s.running <==> Stop !in before) && |s.taken| == Takes(max, before)
    requires IsFull(s) <==> Full(max, before)
    requires s.queue != [] <==> Waits(max, before)
    ensures Next(s, a).workers.Keys == s.workers.Keys && Next(s, a).max == s.max
    ensures forall w :: w in s.workers ==> Next(s, a).workers[w] == WorkerMoves(max, before, a, w, s.workers[w])
  {
    hide RousePosters, Posted, Takes, BlockedPosters, Waits, Full;
  }

  lemma StepPostersTold(s: Pool, max: int, actions: seq<Action>)
    requires actions != [] && Inv(s) && Enabled(s, Last(actions))
    requires TasksTold(s, max, Init(actions)) && PostersTold(s, Init(actions))
    ensures PostersTold(Next(s, Last(actions)), actions)
  {
    hide Inv, WakeWorkers, Sleepers, Waits, Full;
    FullTold(s, max, Init(actions));
  }

  lemma {:induction false} RunSnoc(s: Pool, actions: seq<Action>)
    requires actions != [] && Possible(s, actions)
    ensures Possible(s, Init(actions)) && Enabled(Run(s, Init(actions)), Last(actions))
    ensures Run(s, actions) == Next(Run(s, Init(actions)), Last(actions))
    decreases |actions|
  {
    if |actions| > 1 {
      assert Init(actions)[1..] == Init(actions[1..]);
      RunSnoc(Next(s, actions[0]), actions[1..]);
    } else {
      assert actions[1..] == [];
    }
  }

  /** After every run the state is what the actions say: which tasks were accepted and handed out,
      whether the pool has been stopped, and where every thread is. */
  lemma {:induction false} RunIsTold(max: int, threads: set<Tid>, actions: seq<Action>)
    requires Possible(Started(max, threads), actions)
    ensures Told(Run(Started(max, threads), actions), max, threads, actions)
    decreases |actions|
  {
    hide Inv, Next, Enabled, TasksTold, WorkersTold, PostersTold;
    var s0 := Started(max, threads);
    StartedHolds(max, threads);
    if actions == [] {
      StartedTold(max, threads);
    } else {
      RunSnoc(s0, actions);
      RunIsTold(max, threads, Init(actions));
      RunKeeps(s0, Init(actions));
      var s := Run(s0, Init(actions));
      StepTasksTold(s, max, actions);
      StepWorkersTold(s, max, threads, actions);
      StepPostersTold(s, max, actions);
    }
  }

  lemma StartedTold(max: int, threads: set<Tid>)
    ensures Told(Started(max, threads), max, threads, [])
  {
  }

  // ---------- the theorems ----------

  lemma StartedHolds(max: int, threads: set<Tid>)
    ensures Inv(Started(max, threads))
  {
  }

  /** Wakeup adequacy, both ways: while the pool runs, sleeping workers are at no time outnumbered by
      tasks that no woken worker answers for, nor waiting posters by slots that no roused one will
      fill; and once stopped no worker sleeps. */
  lemma WakeupsAdequate(max: int, threads: set<Tid>, actions: seq<Action>)
    requires Possible(Started(max, threads), actions)
    ensures var s := Run(Started(max, threads), actions);
            && (s.running && Sleepers(s) != {} ==> |s.queue| <= |WokenWorkers(s)|)
            && (BlockedPosters(s) != {} ==> s.max - |s.queue| <= |RousedPosters(s)|)
            && (!s.running ==> Sleepers(s) == {})
            && (s.max > 0 ==> |s.queue| <= s.max)
  {
    StartedHolds(max, threads);
    RunKeeps(Started(max, threads), actions);
  }

  /** First in, first out, exactly once: the tasks taken and the tasks queued are, in that order, those
      that threads brought and the pool accepted; a thread still inside `post` holds the task it
      brought; and each taken task has returned or is run by exactly one worker. */
  lemma TasksExactlyOnce(max: int, threads: set<Tid>, actions: seq<Action>)
    requires Possible(Started(max, threads), actions)
    ensures var s := Run(Started(max, threads), actions);
            && s.taken + s.queue == Posted(max, actions) && |s.taken| == Takes(max, actions)
            && (forall p :: p in s.posters ==> s.posters[p].task == Brought(actions, p))
            && (forall k: nat :: k < |s.taken| ==> (k in s.done <==> !Held(s, k)))
            && (forall v, w ::
                  v in s.workers && w in s.workers && s.workers[v].Busy? && s.workers[v] == s.workers[w] ==>
                  v == w)
  {
    StartedHolds(max, threads);
    RunKeeps(Started(max, threads), actions);
    RunIsTold(max, threads, actions);
  }

  /** A thread of the pool leaves only after `stop`. */
  lemma NoneExitsEarly(max: int, threads: set<Tid>, actions: seq<Action>, w: Tid)
    requires Possible(Started(max, threads), actions) && w in threads
    ensures var s := Run(Started(max, threads), actions);
            w in s.workers && (s.workers[w] == Exited ==> Stop in actions) && (s.running <==> Stop !in actions)
  {
    RunIsTold(max, threads, actions);
    if WorkerAt(max, actions, w) == Exited {
      ExitNeedsStop(max, actions, w);
    }
  }

  lemma {:induction false} ExitNeedsStop(max: int, actions: seq<Action>, w: Tid)
    requires WorkerAt(max, actions, w) == Exited
    ensures Stop in actions
    decreases |actions|
  {
    assert actions == Init(actions) + [Last(actions)];
    if Stop !in actions {
      assert WorkerAt(max, Init(actions), w) == Exited;
      ExitNeedsStop(max, Init(actions), w);
    }
  }

  // ---------- after stop ----------

  /** Steps that a worker has left once the pool is stopped. */
  function Left(w: Worker): nat {
    match w
    case Exited => 0
    case AtHead => 1
    case Busy(_) => 2
    case _ => 3
  }

  predicate By(a: Action, w: Tid) {
    (a.ReadRunning? || a.Take? || a.Finish?) && a.w == w
  }

  function StepsBy(actions: seq<Action>, w: Tid): nat {
    if actions == [] then 0 else (if By(actions[0], w) then 1 else 0) + StepsBy(actions[1..], w)
  }

  /** After stop no worker can be held up, and each step of its own brings it nearer to its exit: at
      most three steps are left, whatever the other threads do, so `join` returns if tasks do. */
  lemma {:induction false} StoppedWorkersExit(s: Pool, actions: seq<Action>, w: Tid)
    requires Inv(s) && !s.running && w in s.workers && Possible(s, actions)
    ensures var t := Run(s, actions);
            && w in t.workers
            && StepsBy(actions, w) + Left(t.workers[w]) <= Left(s.workers[w]) <= 3
            && (t.workers[w] == Exited || exists a :: By(a, w) && Enabled(t, a))
    decreases |actions|
  {
    if actions == [] {
      assert w !in Sleepers(s);
      var a := match s.workers[w]
        case AtHead => ReadRunning(w)
        case Busy(_) => Finish(w)
        case _ => Take(w, BlockedPosters(s));
      assert s.workers[w] == Exited || (By(a, w) && Enabled(s, a));
    } else {
      StepKeeps(s, actions[0]);
      StoppedStep(s, actions[0], w);
      StoppedWorkersExit(Next(s, actions[0]), actions[1..], w);
    }
  }

  lemma StoppedStep(s: Pool, a: Action, w: Tid)
    requires Inv(s) && !s.running && w in s.workers && Enabled(s, a)
    ensures var t := Next(s, a);
            !t.running && w in t.workers && (if By(a, w) then 1 else 0) + Left(t.workers[w]) <= Left(s.workers[w])
  {
    assert w !in Sleepers(s);
  }
}
