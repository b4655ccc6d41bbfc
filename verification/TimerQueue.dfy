/** Timers of an event loop (RN/net/TimerQueue.cpp, RN/net/Timer.cpp): an ordered set of entries, one
timerfd armed for the first of them, and callbacks that add timers while expired ones are being run.

Times are microseconds.  `TimerSpec` gives the effect of every operation on values, `TimerRuns` what
every run keeps, `TimerQueues` the class with the source's loops.
*/
module TimerSpec {
  const MICROS_PER_SECOND: nat := 1_000_000
  const NANOS_PER_SECOND: nat := 1_000_000_000
  const MIN_WAIT: nat := 100

  /** A timer object; `addr` is where it lives, which decides between equal times in the set. */
  datatype Timer = Timer(expiration: int, interval: real, addr: nat)

  /** An element of the set: the key time and the timer, which is number `id` of those created. */
  datatype Entry = Entry(when: int, addr: nat, id: nat)

  /** The timerfd: not armed, counting down, or readable, for the time last programmed. */
  datatype Alarm = Unarmed | Counting(target: int) | Readable(target: int)

  /** A callback run: which timer, when it was due, and the `now` it was run with. */
  datatype Firing = Firing(id: nat, due: int, at: int)

  datatype Queue = Queue(timers: seq<Entry>, pool: seq<Timer>, alarm: Alarm, fired: seq<Firing>)

  datatype NewTimer = NewTimer(when: int, interval: real, addr: nat)

  const EMPTY := Queue([], [], Unarmed, [])

  predicate Less(a: Entry, b: Entry) {
    a.when < b.when || (a.when == b.when && (a.addr < b.addr || (a.addr == b.addr && a.id < b.id)))
  }

  /** `static_cast<int64_t>(seconds * 1000000)`, towards zero. */
  function Micros(seconds: real): int {
    if seconds >= 0.0 then (seconds * 1000000.0).Floor else -(-seconds * 1000000.0).Floor
  }

  predicate Repeats(t: Timer) {
    t.interval > 0.0
  }

  /** `lower_bound`: how many elements come before `e`. */
  function LowerBound(s: seq<Entry>, e: Entry): (k: nat)
    ensures k <= |s|
    ensures forall i :: 0 <= i < k ==> Less(s[i], e)
    ensures k < |s| ==> !Less(s[k], e)
  {
    if s == [] || !Less(s[0], e) then 0 else 1 + LowerBound(s[1..], e)
  }

  function Inserted(s: seq<Entry>, e: Entry): seq<Entry> {
    s[..LowerBound(s, e)] + [e] + s[LowerBound(s, e)..]
  }

  function EntryOf(q: Queue, id: nat): Entry
    requires id < |q.pool|
  {
    Entry(q.pool[id].expiration, q.pool[id].addr, id)
  }

  function Insert(q: Queue, id: nat): Queue
    requires id < |q.pool|
  {
    q.(timers := Inserted(q.timers, EntryOf(q, id)))
  }

  /** Whether inserting at `when` makes it the earliest. */
  predicate EarliestChanged(q: Queue, when: int) {
    q.timers == [] || when < q.timers[0].when
  }

  function AddTimer(q: Queue, t: NewTimer): Queue {
    var q1 := q.(pool := q.pool + [Timer(t.when, t.interval, t.addr)]);
    var q2 := Insert(q1, |q.pool|);
    if EarliestChanged(q, t.when) then q2.(alarm := Counting(t.when)) else q2
  }

  function AddAll(q: Queue, ts: seq<NewTimer>): Queue {
    if ts == [] then q else AddTimer(AddAll(q, ts[..|ts| - 1]), ts[|ts| - 1])
  }

  /** Null is the smallest pointer, so the sentinel comes before every entry one microsecond later. */
  function Sentinel(now: int): Entry {
    Entry(now + 1, 0, 0)
  }

  function ExpiredCount(q: Queue, now: int): nat {
    LowerBound(q.timers, Sentinel(now))
  }

  /** The expired callbacks in order; the k-th adds the timers `adds(k)`. */
  function Callbacks(q: Queue, expired: seq<Entry>, now: int, adds: nat -> seq<NewTimer>): Queue {
    if expired == [] then q
    else
      var k := |expired| - 1;
      var q1 := Callbacks(q, expired[..k], now, adds);
      AddAll(q1.(fired := q1.fired + [Firing(expired[k].id, expired[k].when, now)]), adds(k))
  }

  /** `restart` and `insert` of one expired timer. */
  function Rearm(q: Queue, id: nat, now: int): Queue
    requires id < |q.pool|
  {
    if !Repeats(q.pool[id]) then q
    else Insert(q.(pool := q.pool[id := q.pool[id].(expiration := now + Micros(q.pool[id].interval))]), id)
  }

  function RearmAll(q: Queue, expired: seq<Entry>, now: int): (r: Queue)
    requires forall e :: e in expired ==> e.id < |q.pool|
    ensures |r.pool| == |q.pool|
  {
    if expired == [] then q
    else Rearm(RearmAll(q, expired[..|expired| - 1], now), expired[|expired| - 1].id, now)
  }

  /** Arms for the first entry, unless its time is not a valid one. */
  function ArmFirst(q: Queue): Queue {
    if q.timers != [] && q.timers[0].id < |q.pool| && q.pool[q.timers[0].id].expiration > 0 then
      q.(alarm := Counting(q.pool[q.timers[0].id].expiration))
    else q
  }

  function HandleRead(q: Queue, now: int, adds: nat -> seq<NewTimer>): Queue
    requires forall e :: e in q.timers ==> e.id < |q.pool|
  {
    var k := ExpiredCount(q, now);
    var expired := q.timers[..k];
    var q1 := Callbacks(q.(timers := q.timers[k..], alarm := Unarmed), expired, now, adds);
    CallbacksGrow(q.(timers := q.timers[k..], alarm := Unarmed), expired, now, adds);
    ArmFirst(RearmAll(q1, expired, now))
  }

  lemma {:induction false} AddAllGrows(q: Queue, ts: seq<NewTimer>)
    ensures |AddAll(q, ts).pool| >= |q.pool|
    decreases |ts|
  {
    if ts != [] {
      AddAllGrows(q, ts[..|ts| - 1]);
    }
  }

  lemma {:induction false} CallbacksGrow(q: Queue, expired: seq<Entry>, now: int, adds: nat -> seq<NewTimer>)
    ensures |Callbacks(q, expired, now, adds).pool| >= |q.pool|
    decreases |expired|
  {
    if expired != [] {
      var k := |expired| - 1;
      var q1 := Callbacks(q, expired[..k], now, adds);
      CallbacksGrow(q, expired[..k], now, adds);
      AddAllGrows(q1.(fired := q1.fired + [Firing(expired[k].id, expired[k].when, now)]), adds(k));
    }
  }

  // ---------- the time programmed ----------

  datatype Timespec = Timespec(sec: int, nsec: int)

  function Wait(when: int, now: int): nat {
    if when - now < MIN_WAIT then MIN_WAIT else when - now
  }

  /** The remainder is in microseconds but stored as nanoseconds. */
  function TimeFromNow(when: int, now: int): Timespec {
    Timespec(Wait(when, now) / MICROS_PER_SECOND, Wait(when, now) % MICROS_PER_SECOND)
  }

  /** What is programmed never disarms the timerfd and is a valid timespec.  A wait of 100 microseconds
      or more comes out short by 999 nanoseconds for each microsecond beyond whole seconds, so it is
      exact just for those; any shorter one comes out as 100 nanoseconds.  So beyond 100 microseconds
      the timer can only wake too early. */
  lemma TimespecExact(when: int, now: int)
    ensures var ts := TimeFromNow(when, now);
            var nanos := ts.sec * NANOS_PER_SECOND + ts.nsec;
            && 0 < nanos
            && 0 <= ts.nsec < NANOS_PER_SECOND
            && (when - now >= 100 ==>
                  && nanos == (when - now) * 1000 - 999 * ((when - now) % 1_000_000)
                  && (nanos == (when - now) * 1000 <==> (when - now) % 1_000_000 == 0))
            && (when - now < 100 ==> nanos == 100)
  {
  }

  /** An interval in microseconds is cut towards zero. */
  lemma MicrosExact(seconds: real)
    ensures seconds >= 0.0 ==> Micros(seconds) as real <= seconds * 1000000.0 < Micros(seconds) as real + 1.0
    ensures seconds <= 0.0 ==> Micros(seconds) as real - 1.0 < seconds * 1000000.0 <= Micros(seconds) as real
  {
  }
}

module TimerRuns {
  import opened TimerSpec

  ghost predicate Sorted(s: seq<Entry>) {
    forall i, j :: 0 <= i < j < |s| ==> Less(s[i], s[j])
  }

  /** Every entry carries its timer's current expiration, and no timer has two entries. */
  ghost predicate Keyed(q: Queue) {
    && Sorted(q.timers)
    && (forall e :: e in q.timers ==> e.id < |q.pool| && e == EntryOf(q, e.id))
  }

  predicate InSet(q: Queue, id: nat)
    requires id < |q.pool|
  {
    EntryOf(q, id) in q.timers
  }

  /** What the callbacks run so far promise about the timers, and about each other. */
  ghost predicate Spaced(q: Queue) {
    && (forall f :: f in q.fired ==> f.id < |q.pool| && f.due <= f.at)
    && (forall f :: f in q.fired && InSet(q, f.id) ==>
          Repeats(q.pool[f.id]) && q.pool[f.id].expiration >= f.at + Micros(q.pool[f.id].interval))
    && (forall i, j :: 0 <= i < j < |q.fired| && q.fired[i].id == q.fired[j].id ==>
          Repeats(q.pool[q.fired[i].id]) && q.fired[j].at >= q.fired[i].at + Micros(q.pool[q.fired[i].id].interval))
  }

  predicate ArmedFor(q: Queue, when: int) {
    q.alarm == Counting(when) || q.alarm == Readable(when)
  }

  /** While timers are in the set the timerfd counts down to, or reports, the earliest of them. */
  ghost predicate Armed(q: Queue) {
    q.timers != [] ==> ArmedFor(q, q.timers[0].when)
  }

  ghost predicate Inv(q: Queue) {
    Keyed(q) && Spaced(q) && Armed(q)
  }

  // ---------- the ordered set ----------

  lemma LessTransitive(a: Entry, b: Entry, c: Entry)
    ensures Less(a, b) && Less(b, c) ==> Less(a, c)
  {
  }

  /** In a sorted set `lower_bound` splits exactly. */
  lemma {:induction false} BoundSplits(s: seq<Entry>, e: Entry)
    requires Sorted(s)
    ensures forall i :: LowerBound(s, e) <= i < |s| ==> !Less(s[i], e)
    decreases |s|
  {
    if s != [] && Less(s[0], e) {
      BoundSplits(s[1..], e);
      assert forall i :: LowerBound(s, e) <= i < |s| ==> s[i] == s[1..][i - 1];
    } else {
      forall i | 0 <= i < |s| ensures !Less(s[i], e) {
        if i > 0 {
          LessTransitive(s[0], s[i], e);
        }
      }
    }
  }

  /** Putting an entry between the smaller and the larger ones keeps the set sorted. */
  lemma SortedAround(s: seq<Entry>, e: Entry, k: nat)
    requires Sorted(s) && k <= |s|
    requires forall i :: 0 <= i < k ==> Less(s[i], e)
    requires forall i :: k <= i < |s| ==> Less(e, s[i])
    ensures Sorted(s[..k] + [e] + s[k..])
  {
    var r := s[..k] + [e] + s[k..];
    forall i, j | 0 <= i < j < |r| ensures Less(r[i], r[j]) {
      var x, y := if i <= k then i else i - 1, if j <= k then j else j - 1;
      assert i != k ==> r[i] == s[x];
      assert j != k ==> r[j] == s[y];
    }
  }

  /** Inserting an entry that is not there keeps the set sorted and adds just that entry. */
  lemma InsertKeepsSorted(s: seq<Entry>, e: Entry)
    requires Sorted(s) && e !in s
    ensures Sorted(Inserted(s, e))
    ensures forall x :: x in Inserted(s, e) <==> x == e || x in s
    ensures Inserted(s, e)[0] == if s == [] || Less(e, s[0]) then e else s[0]
  {
    BoundSplits(s, e);
    var k := LowerBound(s, e);
    forall i | k <= i < |s| ensures Less(e, s[i]) {
      assert s[i] in s;
    }
    SortedAround(s, e, k);
    MembersAround(s, e, k);
  }

  lemma MembersAround(s: seq<Entry>, e: Entry, k: nat)
    requires k <= |s|
    ensures forall x :: x in s[..k] + [e] + s[k..] <==> x == e || x in s
  {
    assert s == s[..k] + s[k..];
  }

  /** The sentinel separates exactly the entries due by `now` from the later ones. */
  lemma SentinelSplits(q: Queue, now: int)
    requires Keyed(q)
    ensures var k := ExpiredCount(q, now);
            && (forall e :: e in q.timers[..k] ==> e.when <= now)
            && (forall e :: e in q.timers[k..] ==> e.when > now)
            && q.timers == q.timers[..k] + q.timers[k..]
  {
    BoundSplits(q.timers, Sentinel(now));
  }

  // ---------- adding timers ----------

  /** An earliest time that is not a valid one was put there by a callback, and armed for then. */
  ghost predicate ArmedIfInvalid(q: Queue) {
    q.timers != [] && q.timers[0].when <= 0 ==> ArmedFor(q, q.timers[0].when)
  }

  /** An entry whose timer is unchanged and not in the set. */
  ghost predicate Out(q: Queue, e: Entry) {
    e.id < |q.pool| && EntryOf(q, e.id) == e && e !in q.timers
  }

  lemma AddKeyed(q: Queue, t: NewTimer)
    requires Keyed(q)
    ensures Keyed(AddTimer(q, t))
    ensures forall x :: x in AddTimer(q, t).timers <==> x == Entry(t.when, t.addr, |q.pool|) || x in q.timers
    ensures AddTimer(q, t).timers != []
    ensures AddTimer(q, t).timers[0].when == if EarliestChanged(q, t.when) then t.when else q.timers[0].when
  {
    InsertKeepsSorted(q.timers, Entry(t.when, t.addr, |q.pool|));
  }

  lemma AddKeeps(q: Queue, t: NewTimer)
    requires Keyed(q) && Spaced(q)
    ensures var r := AddTimer(q, t);
            && Keyed(r) && Spaced(r) && r.fired == q.fired
            && (Armed(q) ==> Armed(r)) && (ArmedIfInvalid(q) ==> ArmedIfInvalid(r))
    ensures forall e :: Out(q, e) ==> Out(AddTimer(q, t), e)
  {
    AddKeyed(q, t);
    var r := AddTimer(q, t);
    forall id: nat | id < |q.pool| ensures EntryOf(r, id) == EntryOf(q, id) && InSet(r, id) == InSet(q, id) {
      assert EntryOf(q, id) != Entry(t.when, t.addr, |q.pool|);
    }
  }

  lemma {:induction false} AddAllKeeps(q: Queue, ts: seq<NewTimer>)
    requires Keyed(q) && Spaced(q)
    ensures var r := AddAll(q, ts);
            && Keyed(r) && Spaced(r) && r.fired == q.fired
            && (Armed(q) ==> Armed(r)) && (ArmedIfInvalid(q) ==> ArmedIfInvalid(r))
    ensures forall e :: Out(q, e) ==> Out(AddAll(q, ts), e)
    decreases |ts|
  {
    hide Keyed, Spaced, Out, Armed, ArmedIfInvalid, AddTimer;
    if ts != [] {
      AddAllKeeps(q, ts[..|ts| - 1]);
      AddKeeps(AddAll(q, ts[..|ts| - 1]), ts[|ts| - 1]);
    }
  }

  // ---------- running callbacks ----------

  /** An expired timer whose callback is still to run. */
  ghost predicate Owing(q: Queue, e: Entry) {
    Out(q, e) && forall f :: f in q.fired && f.id == e.id ==>
                   Repeats(q.pool[e.id]) && e.when >= f.at + Micros(q.pool[e.id].interval)
  }

  /** An expired timer whose callback has run. */
  ghost predicate Served(q: Queue, e: Entry, now: int) {
    Out(q, e) && forall f :: f in q.fired && f.id == e.id ==> f.at <= now
  }

  ghost predicate DistinctIds(s: seq<Entry>) {
    forall i, j :: 0 <= i < j < |s| ==> s[i].id != s[j].id
  }

  function Fire(q: Queue, e: Entry, now: int): Queue {
    q.(fired := q.fired + [Firing(e.id, e.when, now)])
  }

  lemma FireKeeps(q: Queue, e: Entry, now: int)
    requires Keyed(q) && Spaced(q) && Owing(q, e) && e.when <= now
    ensures var r := Fire(q, e, now);
            && Keyed(r) && Spaced(r) && (ArmedIfInvalid(q) ==> ArmedIfInvalid(r)) && Served(r, e, now)
    ensures forall x :: Served(q, x, now) && x.id != e.id ==> Served(Fire(q, e, now), x, now)
    ensures forall x :: Owing(q, x) && x.id != e.id ==> Owing(Fire(q, e, now), x)
  {
    var r := Fire(q, e, now);
    MicrosNotNegative(q.pool[e.id].interval);
    assert forall f :: f in r.fired <==> f == Firing(e.id, e.when, now) || f in q.fired;
    forall f | f in r.fired && InSet(r, f.id)
      ensures Repeats(r.pool[f.id]) && r.pool[f.id].expiration >= f.at + Micros(r.pool[f.id].interval)
    {
      assert InSet(q, f.id) && f.id != e.id;
    }
    SpacedPairs(q, e, now);
  }

  lemma SpacedPairs(q: Queue, e: Entry, now: int)
    requires Spaced(q) && Owing(q, e) && e.when <= now
    ensures var r := Fire(q, e, now);
            forall i, j :: 0 <= i < j < |r.fired| && r.fired[i].id == r.fired[j].id ==>
              && r.fired[i].id < |r.pool| && Repeats(r.pool[r.fired[i].id])
              && r.fired[j].at >= r.fired[i].at + Micros(r.pool[r.fired[i].id].interval)
  {
    var r := Fire(q, e, now);
    forall i, j | 0 <= i < j < |r.fired| && r.fired[i].id == r.fired[j].id
      ensures r.fired[i].id < |r.pool| && Repeats(r.pool[r.fired[i].id])
      ensures r.fired[j].at >= r.fired[i].at + Micros(r.pool[r.fired[i].id].interval)
    {
      assert q.fired[i] in q.fired;
    }
  }

  lemma MicrosNotNegative(seconds: real)
    ensures seconds >= 0.0 ==> Micros(seconds) >= 0
  {
  }

  lemma {:induction false} CallbacksKeep(q: Queue, expired: seq<Entry>, now: int, adds: nat -> seq<NewTimer>)
    requires Keyed(q) && Spaced(q) && ArmedIfInvalid(q) && DistinctIds(expired)
    requires forall e :: e in expired ==> Owing(q, e) && e.when <= now
    ensures var r := Callbacks(q, expired, now, adds);
            Keyed(r) && Spaced(r) && ArmedIfInvalid(r) && forall e :: e in expired ==> Served(r, e, now)
    ensures forall x :: Owing(q, x) && (forall e :: e in expired ==> e.id != x.id) ==>
              Owing(Callbacks(q, expired, now, adds), x)
    decreases |expired|
  {
    hide Keyed, Spaced, ArmedIfInvalid, AddAll, Out, Owing, Served;
    if expired != [] {
      var k := |expired| - 1;
      var last := expired[k];
      assert expired == expired[..k] + [last];
      CallbacksKeep(q, expired[..k], now, adds);
      var q1 := Callbacks(q, expired[..k], now, adds);
      FireKeeps(q1, last, now);
      AddAllKeepsRest(Fire(q1, last, now), adds(k), now);
    }
  }

  lemma AddAllKeepsRest(q: Queue, ts: seq<NewTimer>, now: int)
    requires Keyed(q) && Spaced(q) && ArmedIfInvalid(q)
    ensures Keyed(AddAll(q, ts)) && Spaced(AddAll(q, ts)) && ArmedIfInvalid(AddAll(q, ts))
    ensures forall x :: Served(q, x, now) ==> Served(AddAll(q, ts), x, now)
    ensures forall x :: Owing(q, x) ==> Owing(AddAll(q, ts), x)
  {
    hide Keyed, Spaced, ArmedIfInvalid, AddAll;
    AddAllKeeps(q, ts);
    AddAllIntervals(q, ts);
  }

  lemma {:induction false} AddAllIntervals(q: Queue, ts: seq<NewTimer>)
    ensures |AddAll(q, ts).pool| >= |q.pool| && AddAll(q, ts).pool[..|q.pool|] == q.pool
    ensures forall id: nat :: id < |q.pool| ==> AddAll(q, ts).pool[id] == q.pool[id]
    decreases |ts|
  {
    if ts != [] {
      AddAllIntervals(q, ts[..|ts| - 1]);
    }
  }

  // ---------- re-arming ----------

  /** The timer of `e` gets its new expiration while it is out of the set, and goes back in. */
  lemma RearmKeyed(q: Queue, e: Entry, now: int)
    requires Keyed(q) && Out(q, e) && ArmedIfInvalid(q) && Repeats(q.pool[e.id]) && now > 0
    ensures var r := Rearm(q, e.id, now);
            Keyed(r) && ArmedIfInvalid(r) && |r.pool| == |q.pool| && r.fired == q.fired
    ensures forall x :: Out(q, x) && x.id != e.id ==> Out(Rearm(q, e.id, now), x)
  {
    var id := e.id;
    MicrosNotNegative(q.pool[id].interval);
    var r0 := q.(pool := q.pool[id := q.pool[id].(expiration := now + Micros(q.pool[id].interval))]);
    assert forall x :: x in q.timers ==> x.id != id;
    InsertKeepsSorted(q.timers, EntryOf(r0, id));
    assert forall g: nat :: g < |q.pool| && g != id ==> EntryOf(Rearm(q, id, now), g) == EntryOf(q, g);
  }

  lemma RearmKeeps(q: Queue, e: Entry, now: int)
    requires Keyed(q) && Spaced(q) && ArmedIfInvalid(q) && Served(q, e, now) && now > 0
    ensures var r := Rearm(q, e.id, now);
            Keyed(r) && Spaced(r) && ArmedIfInvalid(r) && |r.pool| == |q.pool|
    ensures forall x :: Served(q, x, now) && x.id != e.id ==> Served(Rearm(q, e.id, now), x, now)
  {
    hide Keyed, Spaced, ArmedIfInvalid, Out, Insert;
    assert Out(q, e);
    OutIsThere(q, e);
    if Repeats(q.pool[e.id]) {
      RearmKeyed(q, e, now);
      RearmSpaced(q, e, now);
    }
  }

  lemma OutIsThere(q: Queue, e: Entry)
    requires Out(q, e)
    ensures e.id < |q.pool|
  {
  }

  lemma RearmSpaced(q: Queue, e: Entry, now: int)
    requires Keyed(q) && Spaced(q) && Served(q, e, now) && Repeats(q.pool[e.id])
    ensures Spaced(Rearm(q, e.id, now))
  {
    var id := e.id;
    var r0 := q.(pool := q.pool[id := q.pool[id].(expiration := now + Micros(q.pool[id].interval))]);
    var r := Rearm(q, id, now);
    InsertKeepsSorted(q.timers, EntryOf(r0, id));
    assert forall g: nat :: g < |q.pool| ==> r.pool[g].interval == q.pool[g].interval;
    forall f | f in r.fired && InSet(r, f.id)
      ensures Repeats(r.pool[f.id]) && r.pool[f.id].expiration >= f.at + Micros(r.pool[f.id].interval)
    {
      if f.id != id {
        assert EntryOf(r, f.id) == EntryOf(q, f.id);
        assert InSet(q, f.id);
      }
    }
  }

  lemma {:induction false} RearmAllKeeps(q: Queue, expired: seq<Entry>, now: int)
    requires Keyed(q) && Spaced(q) && ArmedIfInvalid(q) && DistinctIds(expired) && now > 0
    requires forall e :: e in expired ==> Served(q, e, now) && e.id < |q.pool|
    ensures var r := RearmAll(q, expired, now);
            Keyed(r) && Spaced(r) && ArmedIfInvalid(r)
    ensures forall x :: Served(q, x, now) && (forall e :: e in expired ==> e.id != x.id) ==>
              Served(RearmAll(q, expired, now), x, now)
    decreases |expired|
  {
    hide Keyed, Spaced, ArmedIfInvalid, Served;
    if expired != [] {
      var k := |expired| - 1;
      assert expired == expired[..k] + [expired[k]];
      RearmAllKeeps(q, expired[..k], now);
      RearmKeeps(RearmAll(q, expired[..k], now), expired[k], now);
    }
  }

  lemma ArmFirstArms(q: Queue)
    requires Keyed(q) && Spaced(q) && ArmedIfInvalid(q)
    ensures Inv(ArmFirst(q))
  {
    if q.timers != [] {
      assert q.timers[0] in q.timers;
    }
  }

  // ---------- one read of the timerfd ----------

  lemma ExpiredAreOwing(q: Queue, now: int)
    requires Inv(q) && now > 0
    ensures var k := ExpiredCount(q, now);
            var r := q.(timers := q.timers[k..], alarm := Unarmed);
            && Keyed(r) && Spaced(r) && ArmedIfInvalid(r) && DistinctIds(q.timers[..k])
            && forall e :: e in q.timers[..k] ==> Owing(r, e) && e.when <= now
  {
    SentinelSplits(q, now);
    var k := ExpiredCount(q, now);
    DroppedAreOwing(q, k);
    DroppedSpaced(q, k);
    var r := q.(timers := q.timers[k..], alarm := Unarmed);
    if r.timers != [] {
      assert r.timers[0] in q.timers[k..];
    }
  }

  lemma IdsDiffer(q: Queue)
    requires Keyed(q)
    ensures DistinctIds(q.timers)
  {
    forall i, j | 0 <= i < j < |q.timers| ensures q.timers[i].id != q.timers[j].id {
      assert q.timers[i] in q.timers && q.timers[j] in q.timers;
    }
  }

  lemma DroppedAreOwing(q: Queue, k: nat)
    requires Keyed(q) && Spaced(q) && k <= |q.timers|
    ensures var r := q.(timers := q.timers[k..], alarm := Unarmed);
            Keyed(r) && DistinctIds(q.timers[..k]) && forall e :: e in q.timers[..k] ==> Owing(r, e)
  {
    IdsDiffer(q);
    var r := q.(timers := q.timers[k..], alarm := Unarmed);
    forall e | e in q.timers[..k] ensures Owing(r, e) {
      assert e in q.timers && InSet(q, e.id);
    }
  }

  lemma DroppedSpaced(q: Queue, k: nat)
    requires Spaced(q) && k <= |q.timers|
    ensures Spaced(q.(timers := q.timers[k..], alarm := Unarmed))
  {
    var r := q.(timers := q.timers[k..], alarm := Unarmed);
    forall f | f in r.fired && InSet(r, f.id)
      ensures Repeats(r.pool[f.id]) && r.pool[f.id].expiration >= f.at + Micros(r.pool[f.id].interval)
    {
      assert InSet(q, f.id);
    }
  }

  lemma HandleReadKeeps(q: Queue, now: int, adds: nat -> seq<NewTimer>)
    requires Inv(q) && now > 0
    ensures Inv(HandleRead(q, now, adds))
  {
    hide Spaced, ArmedIfInvalid, Owing, Armed;
    ExpiredAreOwing(q, now);
    var k := ExpiredCount(q, now);
    var expired := q.timers[..k];
    var r := q.(timers := q.timers[k..], alarm := Unarmed);
    CallbacksKeep(r, expired, now, adds);
    var r1 := Callbacks(r, expired, now, adds);
    RearmAllKeeps(r1, expired, now);
    ArmFirstArms(RearmAll(r1, expired, now));
  }

  // ---------- whole runs ----------

  /** `Expire` is the kernel's step.  The loop reads the timerfd only when poll has reported it and
      nothing has armed it since: its channel is the first one registered, so no other handler of the
      same round comes before it (`PollSet.FirstDispatchedFirst`).  The read therefore returns 8 bytes,
      as the source asserts. */
  datatype Step = Add(t: NewTimer) | Expire | Read(now: int, adds: nat -> seq<NewTimer>)

  predicate Enabled(q: Queue, s: Step) {
    match s
    case Add(_) => true
    case Expire => q.alarm.Counting?
    case Read(now, _) => q.alarm.Readable? && now > 0
  }

  ghost function Next(q: Queue, s: Step): Queue
    requires Inv(q) && Enabled(q, s)
  {
    match s
    case Add(t) => AddTimer(q, t)
    case Expire => q.(alarm := Readable(q.alarm.target))
    case Read(now, adds) => HandleRead(q, now, adds)
  }

  lemma StepKeeps(q: Queue, s: Step)
    requires Inv(q) && Enabled(q, s)
    ensures Inv(Next(q, s))
  {
    match s
    case Add(t) => AddKeeps(q, t);
    case Expire =>
    case Read(now, adds) => HandleReadKeeps(q, now, adds);
  }

  ghost predicate Possible(q: Queue, steps: seq<Step>)
    requires Inv(q)
    decreases |steps|
  {
    |steps| > 0 ==>
      Enabled(q, steps[0]) && (StepKeeps(q, steps[0]); Possible(Next(q, steps[0]), steps[1..]))
  }

  ghost function Run(q: Queue, steps: seq<Step>): Queue
    requires Inv(q) && Possible(q, steps)
    decreases |steps|
  {
    if |steps| == 0 then q
    else
      StepKeeps(q, steps[0]);
      Run(Next(q, steps[0]), steps[1..])
  }

  lemma {:induction false} RunKeeps(q: Queue, steps: seq<Step>)
    requires Inv(q) && Possible(q, steps)
    ensures Inv(Run(q, steps))
    decreases |steps|
  {
    hide Inv, Next, Enabled;
    if |steps| > 0 {
      StepKeeps(q, steps[0]);
      RunKeeps(Next(q, steps[0]), steps[1..]);
    }
  }

  lemma EmptyHolds()
    ensures Inv(EMPTY)
  {
  }

  /** A sequence of steps of a new timer queue. */
  ghost predicate PossibleFrom(steps: seq<Step>) {
    EmptyHolds(); Possible(EMPTY, steps)
  }

  ghost function After(steps: seq<Step>): Queue
    requires PossibleFrom(steps)
  {
    EmptyHolds();
    Run(EMPTY, steps)
  }

  lemma AfterHolds(steps: seq<Step>)
    requires PossibleFrom(steps)
    ensures Inv(After(steps))
  {
    hide Inv;
    EmptyHolds();
    RunKeeps(EMPTY, steps);
  }

  lemma KeyedIds(q: Queue)
    requires Inv(q)
    ensures Keyed(q) && Keyed(q.(alarm := Unarmed)) && forall e :: e in q.timers ==> e.id < |q.pool|
  {
  }

  /** An expired timer has no entry, whatever time it is given, so its re-insertion never collides. */
  lemma ReinsertIsNew(q: Queue, e: Entry, now: int)
    requires Keyed(q) && Served(q, e, now)
    ensures e.id < |q.pool| && forall x :: x in q.timers ==> x.id != e.id
  {
  }

  function Firings(expired: seq<Entry>, now: int): seq<Firing> {
    if expired == [] then []
    else Firings(expired[..|expired| - 1], now) + [Firing(expired[|expired| - 1].id, expired[|expired| - 1].when, now)]
  }

  /** One read runs exactly the callbacks due by `now`, in the order of their times, whatever timers
      those callbacks add. */
  lemma ReadFiresExactlyTheDue(q: Queue, now: int, adds: nat -> seq<NewTimer>)
    requires Inv(q)
    ensures var k := ExpiredCount(q, now);
            && (forall i :: 0 <= i < |q.timers| ==> (i < k <==> q.timers[i].when <= now))
            && HandleRead(q, now, adds).fired == q.fired + Firings(q.timers[..k], now)
  {
    SentinelSplits(q, now);
    var k := ExpiredCount(q, now);
    forall i | 0 <= i < |q.timers| ensures i < k <==> q.timers[i].when <= now {
      if i < k {
        assert q.timers[i] in q.timers[..k];
      } else {
        assert q.timers[i] in q.timers[k..];
      }
    }
    var r := q.(timers := q.timers[k..], alarm := Unarmed);
    CallbacksFire(r, q.timers[..k], now, adds);
    CallbacksGrow(r, q.timers[..k], now, adds);
    RearmAllFiresNone(Callbacks(r, q.timers[..k], now, adds), q.timers[..k], now);
  }

  /** One read puts every expired repeating timer back, one interval after the time of the read, cut to
      microseconds, and no other expired one. */
  lemma ReadReschedules(q: Queue, now: int, adds: nat -> seq<NewTimer>, e: Entry)
    requires Inv(q) && now > 0 && e in q.timers && e.when <= now
    ensures var r := HandleRead(q, now, adds);
            && e.id < |q.pool|
            && var seconds := q.pool[e.id].interval;
            && (seconds > 0.0 ==>
                  && Entry(now + Micros(seconds), e.addr, e.id) in r.timers
                  && Micros(seconds) as real <= seconds * 1000000.0 < Micros(seconds) as real + 1.0)
            && (seconds <= 0.0 ==> forall x :: x in r.timers ==> x.id != e.id)
  {
    hide Inv, HandleRead, Micros;
    ReadPutsBack(q, now, adds, e);
    MicrosExact(q.pool[e.id].interval);
  }

  lemma ReadPutsBack(q: Queue, now: int, adds: nat -> seq<NewTimer>, e: Entry)
    requires Inv(q) && now > 0 && e in q.timers && e.when <= now
    ensures var r := HandleRead(q, now, adds);
            && e.id < |q.pool|
            && (if Repeats(q.pool[e.id])
                then Entry(now + Micros(q.pool[e.id].interval), e.addr, e.id) in r.timers
                else forall x :: x in r.timers ==> x.id != e.id)
  {
    hide Spaced, ArmedIfInvalid, Armed, Callbacks, RearmAll;
    ExpiredAreOwing(q, now);
    SentinelSplits(q, now);
    var k := ExpiredCount(q, now);
    var expired := q.timers[..k];
    var q0 := q.(timers := q.timers[k..], alarm := Unarmed);
    assert e in expired && Owing(q0, e);
    CallbacksKeep(q0, expired, now, adds);
    CallbacksPool(q0, expired, now, adds);
    CallbacksGrow(q0, expired, now, adds);
    RearmAllEffect(Callbacks(q0, expired, now, adds), expired, now, e);
  }

  lemma {:induction false} CallbacksPool(q: Queue, expired: seq<Entry>, now: int, adds: nat -> seq<NewTimer>)
    ensures var r := Callbacks(q, expired, now, adds);
            |r.pool| >= |q.pool| && forall id: nat :: id < |q.pool| ==> r.pool[id] == q.pool[id]
    decreases |expired|
  {
    if expired != [] {
      var k := |expired| - 1;
      CallbacksPool(q, expired[..k], now, adds);
      AddAllIntervals(Fire(Callbacks(q, expired[..k], now, adds), expired[k], now), adds(k));
    }
  }

  lemma {:induction false} RearmAllEffect(q: Queue, expired: seq<Entry>, now: int, e: Entry)
    requires Keyed(q) && Spaced(q) && ArmedIfInvalid(q) && DistinctIds(expired) && now > 0
    requires forall x :: x in expired ==> Served(q, x, now) && x.id < |q.pool|
    requires e in expired
    ensures var r := RearmAll(q, expired, now);
            if Repeats(q.pool[e.id])
            then Entry(now + Micros(q.pool[e.id].interval), e.addr, e.id) in r.timers
            else forall x :: x in r.timers ==> x.id != e.id
    decreases |expired|
  {
    hide Spaced, ArmedIfInvalid;
    var k := |expired| - 1;
    var last := expired[k];
    assert expired == expired[..k] + [last];
    RearmAllKeeps(q, expired[..k], now);
    RearmAllIntervals(q, expired[..k], now);
    var q1 := RearmAll(q, expired[..k], now);
    ReinsertIsNew(q1, last, now);
    if e == last {
      RearmEffect(q1, last, now);
    } else {
      assert e in expired[..k];
      RearmAllEffect(q, expired[..k], now, e);
      RearmEffect(q1, last, now);
    }
  }

  lemma RearmEffect(q: Queue, e: Entry, now: int)
    requires Keyed(q) && Out(q, e)
    ensures var r := Rearm(q, e.id, now);
            var again := Entry(now + Micros(q.pool[e.id].interval), e.addr, e.id);
            forall x :: x in r.timers <==> x in q.timers || (Repeats(q.pool[e.id]) && x == again)
  {
    if Repeats(q.pool[e.id]) {
      var again := Entry(now + Micros(q.pool[e.id].interval), e.addr, e.id);
      assert forall x :: x in q.timers ==> x.id != e.id;
      InsertKeepsSorted(q.timers, again);
    }
  }

  lemma {:induction false} RearmAllIntervals(q: Queue, expired: seq<Entry>, now: int)
    requires forall x :: x in expired ==> x.id < |q.pool|
    ensures forall id: nat :: id < |q.pool| ==>
              RearmAll(q, expired, now).pool[id].interval == q.pool[id].interval
    decreases |expired|
  {
    if expired != [] {
      RearmAllIntervals(q, expired[..|expired| - 1], now);
    }
  }

  lemma {:induction false} CallbacksFire(q: Queue, expired: seq<Entry>, now: int, adds: nat -> seq<NewTimer>)
    ensures Callbacks(q, expired, now, adds).fired == q.fired + Firings(expired, now)
    decreases |expired|
  {
    if expired != [] {
      var k := |expired| - 1;
      CallbacksFire(q, expired[..k], now, adds);
      AddAllFiresNone(Fire(Callbacks(q, expired[..k], now, adds), expired[k], now), adds(k));
    }
  }

  lemma {:induction false} AddAllFiresNone(q: Queue, ts: seq<NewTimer>)
    ensures AddAll(q, ts).fired == q.fired
    decreases |ts|
  {
    if ts != [] {
      AddAllFiresNone(q, ts[..|ts| - 1]);
    }
  }

  lemma {:induction false} RearmAllFiresNone(q: Queue, expired: seq<Entry>, now: int)
    requires forall e :: e in expired ==> e.id < |q.pool|
    ensures RearmAll(q, expired, now).fired == q.fired
    decreases |expired|
  {
    if expired != [] {
      RearmAllFiresNone(q, expired[..|expired| - 1], now);
    }
  }

  // ---------- what was asked for ----------

  /** Adding a timer stores just what was asked for, and puts just its entry into the set. */
  lemma AddTimerExact(q: Queue, t: NewTimer)
    requires Keyed(q)
    ensures var r := AddTimer(q, t);
            && r.pool == q.pool + [Timer(t.when, t.interval, t.addr)] && r.fired == q.fired
            && (forall x :: x in r.timers <==> x in q.timers || x == Entry(t.when, t.addr, |q.pool|))
            && r.alarm == (if forall x :: x in q.timers ==> t.when < x.when then Counting(t.when) else q.alarm)
  {
    AddKeyed(q, t);
    if q.timers != [] {
      FirstIsEarliest(q);
    }
  }

  lemma FirstIsEarliest(q: Queue)
    requires Keyed(q) && q.timers != []
    ensures q.timers[0] in q.timers && forall x :: x in q.timers ==> q.timers[0].when <= x.when
  {
    forall x | x in q.timers ensures q.timers[0].when <= x.when {
      var i :| 0 <= i < |q.timers| && q.timers[i] == x;
      assert i > 0 ==> Less(q.timers[0], q.timers[i]);
    }
  }

  /** The timer objects made for what was asked. */
  function Made(ts: seq<NewTimer>): seq<Timer> {
    seq(|ts|, i requires 0 <= i < |ts| => Timer(ts[i].when, ts[i].interval, ts[i].addr))
  }

  /** All that the first k callbacks add. */
  function AddsBy(adds: nat -> seq<NewTimer>, k: nat): seq<NewTimer> {
    if k == 0 then [] else AddsBy(adds, k - 1) + adds(k - 1)
  }

  /** The entries of the timers numbered from n on. */
  predicate NewEntry(q: Queue, n: nat, x: Entry) {
    n <= x.id < |q.pool| && x == EntryOf(q, x.id)
  }

  ghost predicate SameBut(q: Queue, r: Queue) {
    |q.pool| <= |r.pool| && forall x :: x in r.timers <==> x in q.timers || NewEntry(r, |q.pool|, x)
  }

  lemma {:induction false} AddAllExact(q: Queue, ts: seq<NewTimer>)
    requires Keyed(q) && Spaced(q)
    ensures AddAll(q, ts).pool == q.pool + Made(ts) && SameBut(q, AddAll(q, ts))
    decreases |ts|
  {
    hide Spaced, AddTimer;
    if ts != [] {
      var n := |ts| - 1;
      AddAllExact(q, ts[..n]);
      AddAllKeeps(q, ts[..n]);
      var r := AddAll(q, ts[..n]);
      AddTimerExact(r, ts[n]);
      assert Made(ts) == Made(ts[..n]) + [Timer(ts[n].when, ts[n].interval, ts[n].addr)];
      var t := AddTimer(r, ts[n]);
      assert forall id: nat :: id < |r.pool| ==> EntryOf(t, id) == EntryOf(r, id);
      assert EntryOf(t, |r.pool|) == Entry(ts[n].when, ts[n].addr, |r.pool|);
    }
  }

  lemma {:induction false} CallbacksExact(q: Queue, expired: seq<Entry>, now: int, adds: nat -> seq<NewTimer>)
    requires Keyed(q) && Spaced(q) && ArmedIfInvalid(q) && DistinctIds(expired)
    requires forall e :: e in expired ==> Owing(q, e) && e.when <= now
    ensures var r := Callbacks(q, expired, now, adds);
            r.pool == q.pool + Made(AddsBy(adds, |expired|)) && SameBut(q, r)
    decreases |expired|
  {
    hide Keyed, Spaced, ArmedIfInvalid, AddAll, Owing;
    if expired != [] {
      var k := |expired| - 1;
      assert expired == expired[..k] + [expired[k]];
      CallbacksExact(q, expired[..k], now, adds);
      CallbacksKeep(q, expired[..k], now, adds);
      CallbackExact(q, Callbacks(q, expired[..k], now, adds), expired[k], now, AddsBy(adds, k), adds(k));
    }
  }

  lemma CallbackExact(q: Queue, r: Queue, e: Entry, now: int, sofar: seq<NewTimer>, ts: seq<NewTimer>)
    requires Keyed(r) && Spaced(r) && Owing(r, e) && e.when <= now
    requires r.pool == q.pool + Made(sofar) && SameBut(q, r)
    ensures AddAll(Fire(r, e, now), ts).pool == q.pool + Made(sofar + ts)
    ensures SameBut(q, AddAll(Fire(r, e, now), ts))
  {
    hide Keyed, Spaced, ArmedIfInvalid, Owing, Served, AddAll;
    FireKeeps(r, e, now);
    AddAllExact(Fire(r, e, now), ts);
    MadeConcat(sofar, ts);
    SameButTransitive(q, Fire(r, e, now), AddAll(Fire(r, e, now), ts), Made(ts));
  }

  lemma MadeConcat(a: seq<NewTimer>, b: seq<NewTimer>)
    ensures Made(a + b) == Made(a) + Made(b)
  {
  }

  lemma SameButTransitive(q: Queue, r: Queue, t: Queue, more: seq<Timer>)
    requires SameBut(q, r) && SameBut(r, t) && t.pool == r.pool + more
    ensures SameBut(q, t)
  {
    assert forall id: nat :: id < |r.pool| ==> EntryOf(t, id) == EntryOf(r, id);
  }

  /** The entry that an expired timer gets when it is re-armed. */
  predicate Again(pool: seq<Timer>, expired: seq<Entry>, now: int, x: Entry) {
    exists e :: e in expired && e.id < |pool| && Repeats(pool[e.id]) &&
                x == Entry(now + Micros(pool[e.id].interval), e.addr, e.id)
  }

  /** A timer after its callback was run with `now`: restarted if it repeats. */
  function Restarted(t: Timer, now: int): Timer {
    if Repeats(t) then t.(expiration := now + Micros(t.interval)) else t
  }

  ghost predicate HasId(s: seq<Entry>, id: nat) {
    exists e :: e in s && e.id == id
  }

  lemma {:induction false} RearmAllPool(q: Queue, expired: seq<Entry>, now: int, id: nat)
    requires DistinctIds(expired) && id < |q.pool| && forall e :: e in expired ==> e.id < |q.pool|
    ensures RearmAll(q, expired, now).pool[id] ==
            if HasId(expired, id) then Restarted(q.pool[id], now) else q.pool[id]
    decreases |expired|
  {
    if expired != [] {
      var k := |expired| - 1;
      assert expired == expired[..k] + [expired[k]];
      RearmAllPool(q, expired[..k], now, id);
      RearmAllPool(q, expired[..k], now, expired[k].id);
      assert expired[k].id == id ==> !HasId(expired[..k], id);
    }
  }

  lemma {:induction false} RearmAllMembers(q: Queue, expired: seq<Entry>, now: int)
    requires Keyed(q) && Spaced(q) && ArmedIfInvalid(q) && DistinctIds(expired) && now > 0
    requires forall e :: e in expired ==> Served(q, e, now) && e.id < |q.pool|
    ensures forall x :: x in RearmAll(q, expired, now).timers <==> x in q.timers || Again(q.pool, expired, now, x)
    decreases |expired|
  {
    hide Keyed, Spaced, ArmedIfInvalid, Served, Out;
    if expired != [] {
      var k := |expired| - 1;
      var last := expired[k];
      assert expired == expired[..k] + [last];
      RearmAllMembers(q, expired[..k], now);
      RearmAllKeeps(q, expired[..k], now);
      RearmAllIntervals(q, expired[..k], now);
      var q1 := RearmAll(q, expired[..k], now);
      ServedIsOut(q1, last, now);
      RearmEffect(q1, last, now);
      assert forall x :: Again(q.pool, expired, now, x) <==>
        Again(q.pool, expired[..k], now, x) || Again(q.pool, [last], now, x);
    }
  }

  lemma ServedIsOut(q: Queue, e: Entry, now: int)
    requires Served(q, e, now)
    ensures Out(q, e)
  {
  }

  /** After a read, timer by timer: those expired are restarted and, if they repeat, have a new entry;
      the others and the entries left are as they were; and the timers made have theirs. */
  ghost predicate TimersAfter(pool: seq<Timer>, r: Queue, expired: seq<Entry>, left: seq<Entry>,
                              made: seq<Timer>, now: int) {
    && |r.pool| == |pool| + |made| && r.pool[|pool|..] == made
    && (forall id: nat :: id < |pool| ==>
          r.pool[id] == if HasId(expired, id) then Restarted(pool[id], now) else pool[id])
    && (forall x :: x in r.timers <==> x in left || NewEntry(r, |pool|, x) || Again(pool, expired, now, x))
  }

  /** One read: the callbacks due are run, in order, and the timers are as `TimersAfter` says. */
  lemma ReadExact(q: Queue, now: int, adds: nat -> seq<NewTimer>)
    requires Inv(q) && now > 0
    ensures var k, r := ExpiredCount(q, now), HandleRead(q, now, adds);
            && DistinctIds(q.timers[..k])
            && r.fired == q.fired + Firings(q.timers[..k], now)
            && TimersAfter(q.pool, r, q.timers[..k], q.timers[k..], Made(AddsBy(adds, k)), now)
  {
    hide Spaced, ArmedIfInvalid, Armed, Owing, Served, Keyed, Out, TimersAfter, RearmAll, Callbacks;
    ExpiredAreOwing(q, now);
    ReadFiresExactlyTheDue(q, now, adds);
    KeyedIds(q);
    var k := ExpiredCount(q, now);
    var q0 := q.(timers := q.timers[k..], alarm := Unarmed);
    CallbacksExact(q0, q.timers[..k], now, adds);
    CallbacksKeep(q0, q.timers[..k], now, adds);
    var q1 := Callbacks(q0, q.timers[..k], now, adds);
    RearmExact(q0, q1, Made(AddsBy(adds, k)), q.timers[..k], now);
    AlarmAside(q.pool, RearmAll(q1, q.timers[..k], now), q.timers[..k], q.timers[k..], Made(AddsBy(adds, k)), now);
  }

  lemma AlarmAside(pool: seq<Timer>, r: Queue, expired: seq<Entry>, left: seq<Entry>, made: seq<Timer>, now: int)
    requires TimersAfter(pool, r, expired, left, made, now)
    ensures TimersAfter(pool, ArmFirst(r), expired, left, made, now)
  {
    assert forall x :: NewEntry(ArmFirst(r), |pool|, x) <==> NewEntry(r, |pool|, x);
  }

  lemma RearmExact(q: Queue, r: Queue, made: seq<Timer>, expired: seq<Entry>, now: int)
    requires Keyed(r) && Spaced(r) && ArmedIfInvalid(r) && DistinctIds(expired) && now > 0
    requires r.pool == q.pool + made && SameBut(q, r)
    requires forall e :: e in expired ==> Served(r, e, now) && e.id < |q.pool|
    ensures TimersAfter(q.pool, RearmAll(r, expired, now), expired, q.timers, made, now)
  {
    hide Keyed, Spaced, ArmedIfInvalid, Served, RearmAll, Restarted;
    var t := RearmAll(r, expired, now);
    forall id: nat | id < |r.pool|
      ensures t.pool[id] == if HasId(expired, id) then Restarted(r.pool[id], now) else r.pool[id]
    {
      RearmAllPool(r, expired, now, id);
    }
    assert forall id: nat :: |q.pool| <= id < |r.pool| ==> !HasId(expired, id);
    RearmAllMembers(r, expired, now);
    SameAgain(q.pool, r.pool, expired, now);
    assert forall x :: NewEntry(r, |q.pool|, x) <==> NewEntry(t, |q.pool|, x);
    assert t.pool[|q.pool|..] == r.pool[|q.pool|..] == made;
  }

  lemma SameAgain(a: seq<Timer>, b: seq<Timer>, expired: seq<Entry>, now: int)
    requires a <= b && forall e :: e in expired ==> e.id < |a|
    ensures forall x :: Again(b, expired, now, x) <==> Again(a, expired, now, x)
  {
  }

  // ---------- runs told by what was asked for ----------

  /** The timers that a step asks for, in order. */
  function Created(q: Queue, s: Step): seq<NewTimer> {
    match s
    case Add(t) => [t]
    case Expire => []
    case Read(now, adds) => AddsBy(adds, ExpiredCount(q, now))
  }

  ghost function AskedFrom(q: Queue, steps: seq<Step>): seq<NewTimer>
    requires Inv(q) && Possible(q, steps)
    decreases |steps|
  {
    if |steps| == 0 then []
    else
      StepKeeps(q, steps[0]);
      Created(q, steps[0]) + AskedFrom(Next(q, steps[0]), steps[1..])
  }

  /** All the timers asked for in a run of a new timer queue: timer number k is the k-th of them. */
  ghost function Asked(steps: seq<Step>): seq<NewTimer>
    requires PossibleFrom(steps)
  {
    EmptyHolds();
    AskedFrom(EMPTY, steps)
  }

  ghost predicate HasFired(fired: seq<Firing>, id: nat) {
    exists f :: f in fired && f.id == id
  }

  /** When timer `id` is due next: when asked, or one interval after its last callback. */
  function Due(t: NewTimer, id: nat, fired: seq<Firing>): int {
    if fired == [] then t.when
    else
      var last := fired[|fired| - 1];
      if last.id == id && t.interval > 0.0 then last.at + Micros(t.interval) else Due(t, id, fired[..|fired| - 1])
  }

  /** Whether the timer has a callback to come. */
  ghost predicate Alive(t: NewTimer, id: nat, fired: seq<Firing>) {
    t.interval > 0.0 || !HasFired(fired, id)
  }

  ghost predicate TimersTold(q: Queue, asked: seq<NewTimer>) {
    && |q.pool| == |asked|
    && forall id: nat :: id < |asked| ==> TimerTold(q, asked, id)
  }

  ghost predicate TimerTold(q: Queue, asked: seq<NewTimer>, id: nat)
    requires id < |q.pool| == |asked|
  {
    && q.pool[id] == Timer(Due(asked[id], id, q.fired), asked[id].interval, asked[id].addr)
    && (HasId(q.timers, id) <==> Alive(asked[id], id, q.fired))
  }

  /** Each callback ran for a timer asked for that was still to run, not before it was due. */
  ghost predicate FiringsTold(fired: seq<Firing>, asked: seq<NewTimer>) {
    forall j :: 0 <= j < |fired| ==> FiringTold(fired[j], fired[..j], asked)
  }

  ghost predicate FiringTold(f: Firing, before: seq<Firing>, asked: seq<NewTimer>) {
    f.id < |asked| && Alive(asked[f.id], f.id, before) && f.due == Due(asked[f.id], f.id, before) <= f.at
  }

  ghost predicate Told(q: Queue, asked: seq<NewTimer>) {
    TimersTold(q, asked) && FiringsTold(q.fired, asked)
  }

  lemma {:induction false} FreshDue(t: NewTimer, id: nat, fired: seq<Firing>)
    requires !HasFired(fired, id)
    ensures Due(t, id, fired) == t.when
    decreases |fired|
  {
    if fired != [] {
      var n := |fired| - 1;
      assert fired[n] in fired && forall f :: f in fired[..n] ==> f in fired;
      FreshDue(t, id, fired[..n]);
    }
  }

  lemma {:induction false} FiringsDue(t: NewTimer, id: nat, fired: seq<Firing>, expired: seq<Entry>, now: int)
    ensures var after := fired + Firings(expired, now);
            && (HasFired(after, id) <==> HasFired(fired, id) || HasId(expired, id))
            && Due(t, id, after) == if HasId(expired, id) && t.interval > 0.0 then now + Micros(t.interval)
                                    else Due(t, id, fired)
    decreases |expired|
  {
    if expired == [] {
      assert fired + [] == fired;
    } else {
      var k := |expired| - 1;
      var last := Firing(expired[k].id, expired[k].when, now);
      var before := fired + Firings(expired[..k], now);
      FiringsDue(t, id, fired, expired[..k], now);
      assert expired == expired[..k] + [expired[k]];
      assert fired + Firings(expired, now) == before + [last];
      assert (before + [last])[..|before|] == before;
      assert forall f :: f in before + [last] <==> f in before || f == last;
    }
  }

  lemma AddTold(q: Queue, asked: seq<NewTimer>, t: NewTimer)
    requires Inv(q) && Told(q, asked)
    ensures Told(AddTimer(q, t), asked + [t])
  {
    hide Inv, Keyed, AddTimer, TimerTold, TimersTold, FiringsTold;
    KeyedIds(q);
    PoolSize(q, asked);
    NotYetFired(q, 0, |asked|);
    AddTimerExact(q, t);
    var r := AddTimer(q, t);
    forall id: nat | id <= |asked| ensures TimerTold(r, asked + [t], id) {
      if id < |asked| {
        TimersToldAt(q, asked, id);
      }
      AddOneTold(q, asked, t, id);
    }
    AllTold(r, asked + [t]);
    MoreFiringsTold(q.fired, asked, [], [t], 0);
    assert q.fired + [] == q.fired;
  }

  lemma PoolSize(q: Queue, asked: seq<NewTimer>)
    requires TimersTold(q, asked)
    ensures |q.pool| == |asked|
  {
  }

  lemma AddOneTold(q: Queue, asked: seq<NewTimer>, t: NewTimer, id: nat)
    requires |q.pool| == |asked| && id <= |asked| && Keyed(q)
    requires id < |asked| ==> TimerTold(q, asked, id)
    requires id == |asked| ==> !HasFired(q.fired, id)
    ensures |AddTimer(q, t).pool| == |asked| + 1 && TimerTold(AddTimer(q, t), asked + [t], id)
  {
    hide Keyed, AddTimer, HasFired;
    AddTimerExact(q, t);
    var r, n := AddTimer(q, t), |asked|;
    if id == n {
      FreshDue(t, n, q.fired);
      assert Entry(t.when, t.addr, n) in r.timers;
    } else {
      assert HasId(r.timers, id) <==> HasId(q.timers, id);
    }
  }

  /** The expired timers leave, each once. */
  lemma LeftIds(q: Queue, k: nat)
    requires Keyed(q) && k <= |q.timers|
    ensures forall id: nat ::
              && (HasId(q.timers, id) <==> HasId(q.timers[..k], id) || HasId(q.timers[k..], id))
              && !(HasId(q.timers[..k], id) && HasId(q.timers[k..], id))
  {
    IdsDiffer(q);
    assert q.timers == q.timers[..k] + q.timers[k..];
    forall e, x | e in q.timers[..k] && x in q.timers[k..] ensures e.id != x.id {
      var i :| 0 <= i < k && q.timers[i] == e;
      var j :| k <= j < |q.timers| && q.timers[j] == x;
    }
  }

  /** A timer that was there before the read. */
  lemma OldTimerTold(q: Queue, asked: seq<NewTimer>, r: Queue, expired: seq<Entry>, left: seq<Entry>,
                     more: seq<NewTimer>, now: int, id: nat)
    requires id < |asked| == |q.pool| && TimerTold(q, asked, id)
    requires TimersAfter(q.pool, r, expired, left, Made(more), now)
    requires r.fired == q.fired + Firings(expired, now)
    requires HasId(q.timers, id) <==> HasId(expired, id) || HasId(left, id)
    requires !(HasId(expired, id) && HasId(left, id))
    ensures TimerTold(r, asked + more, id)
  {
    FiringsDue(asked[id], id, q.fired, expired, now);
    if HasId(expired, id) && asked[id].interval > 0.0 {
      var e :| e in expired && e.id == id;
      assert Again(q.pool, expired, now, Entry(now + Micros(q.pool[id].interval), e.addr, id));
    }
  }

  /** A timer that a callback of the read asked for. */
  lemma NewTimerTold(q: Queue, asked: seq<NewTimer>, r: Queue, expired: seq<Entry>, left: seq<Entry>,
                     more: seq<NewTimer>, now: int, id: nat)
    requires |asked| == |q.pool| <= id < |asked| + |more|
    requires TimersAfter(q.pool, r, expired, left, Made(more), now)
    requires r.fired == q.fired + Firings(expired, now)
    requires !HasFired(q.fired, id) && !HasId(expired, id)
    ensures TimerTold(r, asked + more, id)
  {
    FiringsDue((asked + more)[id], id, q.fired, expired, now);
    FreshDue((asked + more)[id], id, r.fired);
    assert r.pool[id] == r.pool[|asked|..][id - |asked|];
    assert NewEntry(r, |asked|, EntryOf(r, id));
  }

  /** Callbacks run for timers that are due. */
  lemma MoreFiringsTold(fired: seq<Firing>, asked: seq<NewTimer>, expired: seq<Entry>, more: seq<NewTimer>, now: int)
    requires FiringsTold(fired, asked) && DistinctIds(expired)
    requires forall e :: e in expired ==>
               && e.id < |asked| && Alive(asked[e.id], e.id, fired)
               && e.when == Due(asked[e.id], e.id, fired) <= now
    ensures FiringsTold(fired + Firings(expired, now), asked + more)
  {
    var after := fired + Firings(expired, now);
    FiringsShape(expired, now);
    forall j | 0 <= j < |after| ensures FiringTold(after[j], after[..j], asked + more) {
      if j < |fired| {
        assert after[..j] == fired[..j] && FiringTold(fired[j], fired[..j], asked);
      } else {
        var i := j - |fired|;
        FiringsPrefix(expired, now, i);
        assert after[..j] == fired + Firings(expired[..i], now);
        var e := expired[i];
        FiringsDue(asked[e.id], e.id, fired, expired[..i], now);
        assert !HasId(expired[..i], e.id);
      }
    }
  }

  lemma {:induction false} FiringsShape(expired: seq<Entry>, now: int)
    ensures |Firings(expired, now)| == |expired|
    ensures forall i :: 0 <= i < |expired| ==>
              Firings(expired, now)[i] == Firing(expired[i].id, expired[i].when, now)
    decreases |expired|
  {
    if expired != [] {
      FiringsShape(expired[..|expired| - 1], now);
    }
  }

  lemma FiringsPrefix(expired: seq<Entry>, now: int, i: nat)
    requires i <= |expired|
    ensures |Firings(expired, now)| == |expired| && Firings(expired, now)[..i] == Firings(expired[..i], now)
  {
    FiringsShape(expired, now);
    FiringsShape(expired[..i], now);
  }

  lemma StepTold(q: Queue, asked: seq<NewTimer>, s: Step)
    requires Inv(q) && Told(q, asked) && Enabled(q, s)
    ensures Told(Next(q, s), asked + Created(q, s))
  {
    match s
    case Add(t) => AddTold(q, asked, t);
    case Expire =>
      assert asked + [] == asked;
      forall id: nat | id < |asked| ensures TimerTold(Next(q, s), asked, id) {
        assert TimerTold(q, asked, id);
      }
    case Read(now, adds) => ReadTold(q, asked, now, adds);
  }

  lemma ReadTold(q: Queue, asked: seq<NewTimer>, now: int, adds: nat -> seq<NewTimer>)
    requires Inv(q) && Told(q, asked) && now > 0
    ensures Told(HandleRead(q, now, adds), asked + AddsBy(adds, ExpiredCount(q, now)))
  {
    hide Inv, Keyed, TimerTold, TimersTold, FiringsTold, TimersAfter, HasId, HasFired;
    KeyedIds(q);
    ReadExact(q, now, adds);
    var k, r := ExpiredCount(q, now), HandleRead(q, now, adds);
    var expired, more := q.timers[..k], AddsBy(adds, k);
    LeftIds(q, k);
    ExpiredTold(q, asked, now);
    MoreFiringsTold(q.fired, asked, expired, more, now);
    PoolAfter(q.pool, r, expired, q.timers[k..], Made(more), now);
    forall id: nat | id < |asked| + |more| ensures TimerTold(r, asked + more, id) {
      if id < |asked| {
        TimersToldAt(q, asked, id);
        OldTimerTold(q, asked, r, expired, q.timers[k..], more, now, id);
      } else {
        NotYetFired(q, k, id);
        NewTimerTold(q, asked, r, expired, q.timers[k..], more, now, id);
      }
    }
    AllTold(r, asked + more);
  }

  lemma PoolAfter(pool: seq<Timer>, r: Queue, expired: seq<Entry>, left: seq<Entry>, made: seq<Timer>, now: int)
    requires TimersAfter(pool, r, expired, left, made, now)
    ensures |r.pool| == |pool| + |made|
  {
  }

  lemma TimersToldAt(q: Queue, asked: seq<NewTimer>, id: nat)
    requires TimersTold(q, asked) && id < |asked|
    ensures |q.pool| == |asked| && TimerTold(q, asked, id)
  {
  }

  lemma NotYetFired(q: Queue, k: nat, id: nat)
    requires Inv(q) && k <= |q.timers| && id >= |q.pool|
    ensures !HasFired(q.fired, id) && !HasId(q.timers[..k], id)
  {
  }

  lemma ExpiredTold(q: Queue, asked: seq<NewTimer>, now: int)
    requires Inv(q) && Told(q, asked)
    ensures |q.pool| == |asked|
    ensures forall e :: e in q.timers[..ExpiredCount(q, now)] ==>
              && e.id < |asked| && Alive(asked[e.id], e.id, q.fired)
              && e.when == Due(asked[e.id], e.id, q.fired) <= now
  {
    hide Spaced, Armed, Sorted;
    SentinelSplits(q, now);
    forall e | e in q.timers[..ExpiredCount(q, now)]
      ensures e.id < |asked| && Alive(asked[e.id], e.id, q.fired)
      ensures e.when == Due(asked[e.id], e.id, q.fired)
    {
      assert e in q.timers && TimerTold(q, asked, e.id);
    }
  }

  lemma AllTold(q: Queue, asked: seq<NewTimer>)
    requires |q.pool| == |asked| && forall id: nat :: id < |asked| ==> TimerTold(q, asked, id)
    ensures TimersTold(q, asked)
  {
  }

  lemma {:induction false} RunTold(q: Queue, asked: seq<NewTimer>, steps: seq<Step>)
    requires Inv(q) && Possible(q, steps) && Told(q, asked)
    ensures Told(Run(q, steps), asked + AskedFrom(q, steps))
    decreases |steps|
  {
    hide Inv, Next, Enabled, Told, Created;
    if |steps| == 0 {
      assert asked + [] == asked;
    } else {
      StepKeeps(q, steps[0]);
      StepTold(q, asked, steps[0]);
      var c, rest := Created(q, steps[0]), AskedFrom(Next(q, steps[0]), steps[1..]);
      RunTold(Next(q, steps[0]), asked + c, steps[1..]);
      assert asked + c + rest == asked + (c + rest);
    }
  }

  lemma AfterTold(steps: seq<Step>)
    requires PossibleFrom(steps)
    ensures Told(After(steps), Asked(steps))
  {
    hide Inv, Possible, Run, AskedFrom;
    EmptyHolds();
    EmptyTold();
    RunTold(EMPTY, [], steps);
    assert [] + AskedFrom(EMPTY, steps) == AskedFrom(EMPTY, steps);
  }

  lemma EmptyTold()
    ensures Told(EMPTY, [])
  {
  }

  // ---------- the theorems ----------

  /** No timer is forgotten: in every run, just the timers asked for exist, with the interval asked for;
      the set holds exactly those with a callback to come, each under the time it is due; and while there
      are any, the timerfd counts down to, or already reports, the smallest of these times. */
  lemma NoTimerForgotten(steps: seq<Step>)
    requires PossibleFrom(steps)
    ensures var q, asked := After(steps), Asked(steps);
            && |q.pool| == |asked|
            && (forall id: nat :: id < |asked| ==>
                  && q.pool[id].interval == asked[id].interval
                  && (HasId(q.timers, id) <==> Alive(asked[id], id, q.fired)))
            && (forall e :: e in q.timers ==> e.id < |asked| && e.when == Due(asked[e.id], e.id, q.fired))
            && (q.timers != [] ==> ArmedFor(q, q.timers[0].when))
            && (forall e :: e in q.timers ==> q.timers[0].when <= e.when)
  {
    hide After, Asked, PossibleFrom;
    AfterHolds(steps);
    AfterTold(steps);
    var q, asked := After(steps), Asked(steps);
    forall id: nat | id < |asked|
      ensures q.pool[id].interval == asked[id].interval
      ensures HasId(q.timers, id) <==> Alive(asked[id], id, q.fired)
    {
      assert TimerTold(q, asked, id);
    }
    forall e | e in q.timers
      ensures e.id < |asked| && e.when == Due(asked[e.id], e.id, q.fired) && q.timers[0].when <= e.when
    {
      assert TimerTold(q, asked, e.id);
      FirstIsEarliest(q);
    }
  }

  /** No callback runs before it is due: when asked at first, and then one interval, as asked for, after
      the time of the callback before; a one-shot timer runs at most once; and callbacks of a repeating
      timer are at least its interval apart. */
  lemma FiringsSound(steps: seq<Step>)
    requires PossibleFrom(steps)
    ensures var fired, asked := After(steps).fired, Asked(steps);
            && (forall j :: 0 <= j < |fired| ==> FiringTold(fired[j], fired[..j], asked))
            && (forall i, j :: 0 <= i < j < |fired| && fired[i].id == fired[j].id ==>
                  && fired[i].id < |asked|
                  && asked[fired[i].id].interval > 0.0
                  && fired[j].at >= fired[i].at + Micros(asked[fired[i].id].interval)
                  && (fired[j].at - fired[i].at) as real > asked[fired[i].id].interval * 1000000.0 - 1.0)
  {
    hide After, Asked, PossibleFrom;
    AfterHolds(steps);
    AfterTold(steps);
    var q, asked := After(steps), Asked(steps);
    forall i, j | 0 <= i < j < |q.fired| && q.fired[i].id == q.fired[j].id
      ensures q.fired[i].id < |asked| && asked[q.fired[i].id].interval > 0.0
      ensures q.fired[j].at >= q.fired[i].at + Micros(asked[q.fired[i].id].interval)
      ensures (q.fired[j].at - q.fired[i].at) as real > asked[q.fired[i].id].interval * 1000000.0 - 1.0
    {
      assert q.fired[i] in q.fired && TimerTold(q, asked, q.fired[i].id);
      MicrosExact(asked[q.fired[i].id].interval);
    }
  }
}

module TimerQueues {
  import opened TimerSpec
  import opened TimerRuns

  class TimerQueue {
    var timers: seq<Entry>
    var pool: seq<Timer>
    var timerfd: Alarm
    ghost var fired: seq<Firing>

    ghost function State(): Queue
      reads this
    {
      Queue(timers, pool, timerfd, fired)
    }

    constructor ()
      ensures State() == EMPTY
    {
      timers, pool, timerfd, fired := [], [], Unarmed, [];
    }

    /** `resetTimerfd`: settime starts a new countdown and forgets an expiry not yet read. */
    method ResetTimerfd(expiration: int)
      modifies `timerfd
      ensures timerfd == Counting(expiration)
    {
      timerfd := Counting(expiration);
    }

    /** The source asserts that the set did not hold the entry yet. */
    method Insert(id: nat) returns (earliestChanged: bool)
      requires id < |pool| && EntryOf(State(), id) !in timers
      modifies `timers
      ensures State() == TimerSpec.Insert(old(State()), id)
      ensures earliestChanged <==> EarliestChanged(old(State()), pool[id].expiration)
    {
      var when := pool[id].expiration;
      earliestChanged := timers == [] || when < timers[0].when;
      var e := Entry(when, pool[id].addr, id);
      var k := LowerBound(timers, e);
      timers := timers[..k] + [e] + timers[k..];
    }

    method AddTimerInLoop(t: NewTimer)
      requires Keyed(State())
      modifies this
      ensures State() == AddTimer(old(State()), t) && Keyed(State())
      ensures pool == old(pool) + [Timer(t.when, t.interval, t.addr)]
      ensures forall x :: x in timers <==> x in old(timers) || x == Entry(t.when, t.addr, |old(pool)|)
    {
      AddKeyed(State(), t);
      pool := pool + [Timer(t.when, t.interval, t.addr)];
      var id := |pool| - 1;
      var earliestChanged := Insert(id);
      if earliestChanged {
        ResetTimerfd(pool[id].expiration);
      }
    }

    /** A callback that adds the timers `ts`. */
    method RunTimer(e: Entry, now: int, ts: seq<NewTimer>)
      requires Keyed(State())
      modifies this
      ensures State() == AddAll(Fire(old(State()), e, now), ts) && Keyed(State())
    {
      fired := fired + [Firing(e.id, e.when, now)];
      ghost var q := State();
      var i := 0;
      while i < |ts|
        invariant 0 <= i <= |ts|
        invariant Keyed(State()) && State() == AddAll(q, ts[..i])
      {
        assert ts[..i + 1][..i] == ts[..i];
        AddTimerInLoop(ts[i]);
        i := i + 1;
      }
      assert ts[..i] == ts;
    }

    method GetExpired(now: int) returns (expired: seq<Entry>)
      requires Keyed(State())
      modifies `timers
      ensures expired == old(timers)[..ExpiredCount(old(State()), now)]
      ensures timers == old(timers)[ExpiredCount(old(State()), now)..] && Keyed(State())
    {
      SentinelSplits(State(), now);
      var it := LowerBound(timers, Sentinel(now));
      assert it < |timers| ==> timers[it] in timers[it..] && timers[it].when > now;
      expired := timers[..it];
      timers := timers[it..];
    }

    /** `now` is the clock at the head of the handler; `adds(k)` is what the k-th callback adds. */
    method HandleRead(now: int, adds: nat -> seq<NewTimer>)
      requires Inv(State()) && timerfd.Readable? && now > 0
      modifies this
      ensures State() == TimerSpec.HandleRead(old(State()), now, adds) && Inv(State())
    {
      hide Spaced, Armed, ArmedIfInvalid, Owing, Served, Keyed;
      HandleReadKeeps(State(), now, adds);
      ExpiredAreOwing(State(), now);
      KeyedIds(State());
      timerfd := Unarmed;
      var expired := GetExpired(now);
      CallbacksKeep(State(), expired, now, adds);
      CallbacksGrow(State(), expired, now, adds);
      RunAll(expired, now, adds);
      Reset(expired, now);
    }

    method RunAll(expired: seq<Entry>, now: int, adds: nat -> seq<NewTimer>)
      requires Keyed(State())
      modifies this
      ensures State() == Callbacks(old(State()), expired, now, adds)
    {
      hide Keyed;
      ghost var q := State();
      var i := 0;
      while i < |expired|
        invariant 0 <= i <= |expired|
        invariant Keyed(State()) && State() == Callbacks(q, expired[..i], now, adds)
      {
        assert expired[..i + 1][..i] == expired[..i];
        RunTimer(expired[i], now, adds(i));
        i := i + 1;
      }
      assert expired[..i] == expired;
    }

    method Reset(expired: seq<Entry>, now: int)
      requires Keyed(State()) && Spaced(State()) && ArmedIfInvalid(State()) && now > 0
      requires DistinctIds(expired) && forall e :: e in expired ==> e.id < |pool| && Served(State(), e, now)
      modifies this
      ensures State() == ArmFirst(RearmAll(old(State()), expired, now))
    {
      hide Keyed, Spaced, ArmedIfInvalid, Served;
      ghost var q := State();
      var i := 0;
      while i < |expired|
        invariant 0 <= i <= |expired| && |pool| == |q.pool|
        invariant State() == RearmAll(q, expired[..i], now)
      {
        assert expired[..i + 1][..i] == expired[..i];
        RearmAllKeeps(q, expired[..i], now);
        ReinsertIsNew(State(), expired[i], now);
        RestartAndInsert(expired[i].id, now);
        i := i + 1;
      }
      assert expired[..i] == expired;
      if timers != [] && timers[0].id < |pool| && pool[timers[0].id].expiration > 0 {
        ResetTimerfd(pool[timers[0].id].expiration);
      }
    }

    method RestartAndInsert(id: nat, now: int)
      requires id < |pool| && forall x :: x in timers ==> x.id != id
      modifies `pool, `timers
      ensures State() == Rearm(old(State()), id, now)
    {
      if Repeats(pool[id]) {
        Restart(id, now);
        var earliestChanged := Insert(id);
      }
    }

    /** `Timer::restart`. */
    method Restart(id: nat, now: int)
      requires id < |pool|
      modifies `pool
      ensures var t := old(pool[id]);
              pool == old(pool)[id := t.(expiration := if Repeats(t) then now + Micros(t.interval) else 0)]
    {
      var t := pool[id];
      pool := pool[id := t.(expiration := if Repeats(t) then now + Micros(t.interval) else 0)];
    }
  }
}
