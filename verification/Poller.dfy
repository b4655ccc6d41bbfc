/** The poll set (RN/net/Poller.cpp): a dense array of descriptors, a map from descriptor to channel,
and the position that every channel keeps of its own slot.

A disabled channel keeps its slot with the descriptor `fd` written as `-fd - 1`, which poll ignores.
*/
module PollSet {
  import opened Numbers

  datatype PollFd = PollFd(fd: int, events: int, revents: int)

  /** `index` gives, for every registered descriptor, the position its channel remembers. */
  datatype Poll = Poll(fds: seq<PollFd>, index: map<int, int>)

  const EMPTY := Poll([], map[])

  function Decode(fd: int): int {
    if fd < 0 then -fd - 1 else fd
  }

  /** Registered descriptors and slots are in bijection. */
  ghost predicate Inv(p: Poll) {
    && |p.fds| == |p.index|
    && (forall fd :: fd in p.index ==> fd >= 0 && 0 <= p.index[fd] < |p.fds| && Decode(p.fds[p.index[fd]].fd) == fd)
    && (forall i :: 0 <= i < |p.fds| ==> Decode(p.fds[i].fd) in p.index && p.index[Decode(p.fds[i].fd)] == i)
  }

  predicate Disabled(p: Poll, fd: int)
    requires fd in p.index ==> 0 <= p.index[fd] < |p.fds|
  {
    fd in p.index && p.fds[p.index[fd]].fd < 0
  }

  /** A slot is negated when its events become empty, and is not restored when they do not. */
  function Update(p: Poll, fd: int, events: int): Poll
    requires Inv(p) && fd >= 0
  {
    if fd !in p.index then
      Poll(p.fds + [PollFd(fd, events, 0)], p.index[fd := |p.fds|])
    else
      var i := p.index[fd];
      p.(fds := p.fds[i := PollFd(if events == 0 then -fd - 1 else p.fds[i].fd, events, 0)])
  }

  /** The slot of `fd` is filled with the last one. */
  function Remove(p: Poll, fd: int): Poll
    requires Inv(p) && fd in p.index
  {
    var i, n := p.index[fd], |p.fds| - 1;
    if i == n then Poll(p.fds[..n], p.index - {fd})
    else Poll(p.fds[i := p.fds[n]][..n], (p.index - {fd})[Decode(p.fds[n].fd) := i])
  }

  function Slot(p: Poll, fd: int): PollFd
    requires Inv(p) && fd in p.index
  {
    p.fds[p.index[fd]]
  }

  lemma UpdateInv(p: Poll, fd: int, events: int)
    requires Inv(p) && fd >= 0
    ensures Inv(Update(p, fd, events))
  {
  }

  lemma UpdateKeeps(p: Poll, fd: int, events: int)
    requires Inv(p) && fd >= 0
    ensures Inv(Update(p, fd, events))
    ensures Update(p, fd, events).index.Keys == p.index.Keys + {fd}
    ensures forall g :: g in p.index && g != fd ==> Slot(Update(p, fd, events), g) == Slot(p, g)
    ensures Slot(Update(p, fd, events), fd).events == events && Slot(Update(p, fd, events), fd).revents == 0
    ensures Disabled(Update(p, fd, events), fd) <==> (fd in p.index && (events == 0 || Disabled(p, fd)))
  {
    UpdateInv(p, fd, events);
  }

  lemma RemoveKeeps(p: Poll, fd: int)
    requires Inv(p) && fd in p.index
    ensures Inv(Remove(p, fd))
    ensures Remove(p, fd).index.Keys == p.index.Keys - {fd}
    ensures forall g :: g in p.index && g != fd ==> Slot(Remove(p, fd), g) == Slot(p, g)
  {
    RemoveShape(p, fd);
    RemoveSlots(p, fd);
    RemoveFillsGap(p, fd);
  }

  lemma RemoveShape(p: Poll, fd: int)
    requires Inv(p) && fd in p.index
    ensures Remove(p, fd).index.Keys == p.index.Keys - {fd}
    ensures |Remove(p, fd).fds| == |Remove(p, fd).index| == |p.fds| - 1
  {
    LastSlot(p, fd);
    assert |p.index.Keys - {fd}| == |p.index| - 1;
    assert (p.index - {fd}).Keys == p.index.Keys - {fd};
    assert Remove(p, fd).index.Keys == p.index.Keys - {fd};
    assert |Remove(p, fd).index| == |Remove(p, fd).index.Keys|;
  }

  /** Every other channel still finds its slot. */
  lemma RemoveSlots(p: Poll, fd: int)
    requires Inv(p) && fd in p.index
    ensures var q := Remove(p, fd);
            forall g :: g in q.index && g in p.index && g != fd ==>
              0 <= q.index[g] < |q.fds| && q.fds[q.index[g]] == p.fds[p.index[g]]
  {
  }

  /** Every slot left is that of its channel. */
  lemma RemoveFillsGap(p: Poll, fd: int)
    requires Inv(p) && fd in p.index
    ensures var q := Remove(p, fd);
            forall i :: 0 <= i < |q.fds| ==> Decode(q.fds[i].fd) in q.index && q.index[Decode(q.fds[i].fd)] == i
  {
  }

  lemma RemoveInv(p: Poll, fd: int)
    requires Inv(p) && fd in p.index
    ensures Inv(Remove(p, fd)) && Remove(p, fd).index.Keys == p.index.Keys - {fd}
  {
    RemoveKeeps(p, fd);
  }

  /** The channel in the last slot is registered, and is another one unless `fd` is last itself. */
  lemma LastSlot(p: Poll, fd: int)
    requires Inv(p) && fd in p.index
    ensures var last := |p.fds| - 1;
            && 0 <= p.index[fd] <= last == |p.index| - 1
            && Decode(p.fds[last].fd) in p.index && p.index[Decode(p.fds[last].fd)] == last
  {
  }

  lemma RemoveParts(p: Poll, fd: int)
    requires Inv(p) && fd in p.index
    ensures var q, i, last := Remove(p, fd), p.index[fd], |p.fds| - 1;
            && 0 <= i <= last
            && q.fds == (if i == last then p.fds else p.fds[i := p.fds[last]])[..last]
            && q.index.Keys == p.index.Keys - {fd}
            && forall g :: g in q.index ==>
                 && g in p.index
                 && q.index[g] == if i != last && g == Decode(p.fds[last].fd) then i else p.index[g]
  {
    RemoveShape(p, fd);
  }

  lemma UpdateParts(p: Poll, fd: int, events: int)
    requires Inv(p) && fd >= 0
    ensures var q := Update(p, fd, events);
            if fd !in p.index then
              q.fds == p.fds + [PollFd(fd, events, 0)] && q.index == p.index[fd := |p.fds|]
            else
              var i := p.index[fd];
              && 0 <= i < |p.fds|
              && (p.fds[i].fd == fd || p.fds[i].fd == -fd - 1)
              && q.fds == p.fds[i := PollFd(if events == 0 then -fd - 1 else p.fds[i].fd, events, 0)]
              && q.index == p.index
  {
  }

  // ---------- runs of operations ----------

  datatype Op = Change(fd: int, events: int) | Drop(fd: int)

  /** The source's assertions: a channel is removed only when registered and without events. */
  ghost predicate Allowed(p: Poll, op: Op)
    requires Inv(p)
  {
    op.fd >= 0 && (op.Drop? ==> op.fd in p.index && Slot(p, op.fd).events == 0)
  }

  ghost function Apply(p: Poll, op: Op): Poll
    requires Inv(p) && Allowed(p, op)
  {
    if op.Change? then Update(p, op.fd, op.events) else Remove(p, op.fd)
  }

  ghost predicate AllowedRun(p: Poll, ops: seq<Op>)
    decreases |ops|
  {
    Inv(p) && (ops != [] ==> Allowed(p, ops[0]) && AllowedRun(Apply(p, ops[0]), ops[1..]))
  }

  ghost function Run(p: Poll, ops: seq<Op>): Poll
    requires AllowedRun(p, ops)
    decreases |ops|
  {
    if ops == [] then p else Run(Apply(p, ops[0]), ops[1..])
  }

  /** What a caller knows: the registered descriptors and the events each last asked for. */
  type Live = map<int, int>

  predicate Meets(live: Live, op: Op) {
    op.fd >= 0 && (op.Drop? ==> op.fd in live && live[op.fd] == 0)
  }

  function Note(live: Live, op: Op): Live {
    if op.Change? then live[op.fd := op.events] else live - {op.fd}
  }

  /** Each `Drop` names a channel that last asked for no events. */
  ghost predicate Planned(live: Live, ops: seq<Op>)
    decreases |ops|
  {
    ops != [] ==> Meets(live, ops[0]) && Planned(Note(live, ops[0]), ops[1..])
  }

  ghost function LiveAfter(live: Live, ops: seq<Op>): Live
    decreases |ops|
  {
    if ops == [] then live else LiveAfter(Note(live, ops[0]), ops[1..])
  }

  /** The poll set holds exactly the live channels, with the events they last asked for. */
  ghost predicate Holds(p: Poll, live: Live) {
    Inv(p) && p.index.Keys == live.Keys && forall fd :: fd in live ==> Slot(p, fd).events == live[fd]
  }

  lemma StepHolds(p: Poll, live: Live, op: Op)
    requires Holds(p, live) && Meets(live, op)
    ensures Allowed(p, op) && Holds(Apply(p, op), Note(live, op))
  {
    if op.Change? {
      ChangeHolds(p, live, op.fd, op.events);
    } else {
      DropHolds(p, live, op.fd);
    }
  }

  lemma ChangeHolds(p: Poll, live: Live, fd: int, events: int)
    requires Holds(p, live) && fd >= 0
    ensures Holds(Update(p, fd, events), live[fd := events])
  {
    UpdateKeeps(p, fd, events);
    var q := Update(p, fd, events);
    forall g | g in live[fd := events] ensures Slot(q, g).events == live[fd := events][g] {
      assert g == fd || Slot(q, g) == Slot(p, g);
    }
  }

  lemma DropHolds(p: Poll, live: Live, fd: int)
    requires Holds(p, live) && fd in p.index
    ensures Holds(Remove(p, fd), live - {fd})
  {
    RemoveKeeps(p, fd);
    forall g | g in live - {fd} ensures Slot(Remove(p, fd), g).events == live[g] {
      assert Slot(Remove(p, fd), g) == Slot(p, g);
    }
  }

  lemma {:induction false} RunHolds(p: Poll, live: Live, ops: seq<Op>)
    requires Holds(p, live) && Planned(live, ops)
    ensures AllowedRun(p, ops) && Holds(Run(p, ops), LiveAfter(live, ops))
    decreases |ops|
  {
    if ops != [] {
      StepHolds(p, live, ops[0]);
      RunHolds(Apply(p, ops[0]), Note(live, ops[0]), ops[1..]);
    }
  }

  /** Every planned sequence of changes and drops keeps the bijection, meets every assertion of the
      source, and leaves exactly the live channels registered with the events last asked for. */
  lemma BijectionKept(ops: seq<Op>)
    requires Planned(map[], ops)
    ensures AllowedRun(EMPTY, ops) && Holds(Run(EMPTY, ops), LiveAfter(map[], ops))
  {
    RunHolds(EMPTY, map[], ops);
  }

  /** A disabled channel stays disabled through any run that does not remove it, re-enabling included. */
  lemma {:induction false} DisabledStays(p: Poll, ops: seq<Op>, fd: int)
    requires AllowedRun(p, ops) && Disabled(p, fd)
    requires Drop(fd) !in ops
    ensures Inv(Run(p, ops)) && Disabled(Run(p, ops), fd)
    decreases |ops|
  {
    if ops != [] {
      assert ops[0] in ops;
      if ops[0].Change? {
        UpdateKeeps(p, ops[0].fd, ops[0].events);
      } else {
        RemoveKeeps(p, ops[0].fd);
      }
      DisabledStays(Apply(p, ops[0]), ops[1..], fd);
    }
  }

  // ---------- what poll reports ----------

  /** An answer of `::poll`: one value per slot, none for negated descriptors. */
  predicate Answer(p: Poll, revents: seq<int>) {
    |revents| == |p.fds| &&
    forall i :: 0 <= i < |revents| ==> revents[i] >= 0 && (p.fds[i].fd < 0 ==> revents[i] == 0)
  }

  function Polled(p: Poll, revents: seq<int>): Poll
    requires |revents| == |p.fds|
  {
    p.(fds := seq(|p.fds|, i requires 0 <= i < |p.fds| => p.fds[i].(revents := revents[i])))
  }

  predicate OnlyEnabledReport(fds: seq<PollFd>) {
    forall i :: 0 <= i < |fds| && fds[i].revents > 0 ==> fds[i].fd >= 0
  }

  /** The slots with events, in array order. */
  function Active(fds: seq<PollFd>): seq<PollFd> {
    if fds == [] then []
    else
      var n := |fds| - 1;
      Active(fds[..n]) + (if fds[n].revents > 0 then [fds[n]] else [])
  }

  lemma {:induction false} ActivePrefix(fds: seq<PollFd>, i: nat)
    requires i <= |fds|
    ensures Active(fds[..i]) <= Active(fds)
    decreases |fds|
  {
    if i == |fds| {
      assert fds[..i] == fds;
    } else {
      var n := |fds| - 1;
      ActivePrefix(fds[..n], i);
      assert fds[..n][..i] == fds[..i];
    }
  }

  lemma ActiveStep(fds: seq<PollFd>, i: nat)
    requires i < |fds|
    ensures Active(fds[..i + 1]) == Active(fds[..i]) + (if fds[i].revents > 0 then [fds[i]] else [])
  {
    assert fds[..i + 1][..i] == fds[..i];
  }

  /** Stopping once `numEvents` slots were found loses nothing that a full scan would put first. */
  lemma ScanStops(fds: seq<PollFd>, i: nat, numEvents: nat)
    requires i <= |fds| && |Active(fds[..i])| <= numEvents
    requires i == |fds| || |Active(fds[..i])| == numEvents
    ensures Active(fds[..i]) == Active(fds)[..Min(numEvents, |Active(fds)|)]
  {
    ActivePrefix(fds, i);
    assert i == |fds| ==> fds[..i] == fds;
  }

  lemma {:induction false} ActiveMembers(fds: seq<PollFd>)
    ensures forall e :: e in Active(fds) <==> (e in fds && e.revents > 0)
    decreases |fds|
  {
    if fds != [] {
      var n := |fds| - 1;
      ActiveMembers(fds[..n]);
      assert fds == fds[..n] + [fds[n]];
    }
  }

  lemma {:induction false} ActiveOrdered(p: Poll, n: nat)
    requires Inv(p) && n <= |p.fds|
    ensures var a := Active(p.fds[..n]);
            && (forall k :: 0 <= k < |a| ==> Decode(a[k].fd) in p.index && p.index[Decode(a[k].fd)] < n)
            && (forall k, l :: 0 <= k < l < |a| ==> p.index[Decode(a[k].fd)] < p.index[Decode(a[l].fd)])
    decreases n
  {
    if n > 0 {
      ActiveOrdered(p, n - 1);
      ActiveStep(p.fds, n - 1);
      var e := p.fds[n - 1];
      assert p.index[Decode(e.fd)] == n - 1;
    }
  }

  lemma NotYetActive(p: Poll, i: nat)
    requires Inv(p) && i < |p.fds|
    ensures forall k :: 0 <= k < |Active(p.fds[..i])| ==> Active(p.fds[..i])[k].fd != p.fds[i].fd
  {
    ActiveOrdered(p, i);
  }

  lemma PolledKeeps(p: Poll, revents: seq<int>)
    requires Inv(p) && Answer(p, revents)
    ensures Inv(Polled(p, revents)) && OnlyEnabledReport(Polled(p, revents).fds)
  {
  }

  /** What the scan has to return after a poll: exactly the enabled channels with events, each once,
      in array order, each with what was reported for it, and all of them registered. */
  lemma ActiveExact(p: Poll, revents: seq<int>)
    requires Inv(p) && Answer(p, revents)
    ensures var a := Active(Polled(p, revents).fds);
            && (forall fd :: fd in p.index && revents[p.index[fd]] > 0 ==> Reported(a, fd))
            && (forall k :: 0 <= k < |a| ==> Faithful(p, revents, a[k]))
            && (forall k, l :: 0 <= k < l < |a| ==> Before(p, a[k].fd, a[l].fd))
            && DistinctFds(a)
  {
    hide Active;
    var a := Active(Polled(p, revents).fds);
    forall k | 0 <= k < |a| ensures Faithful(p, revents, a[k]) {
      ActiveFaithful(p, revents, k);
    }
    forall k, l | 0 <= k < l < |a| ensures Before(p, a[k].fd, a[l].fd) && a[k].fd != a[l].fd {
      ActiveInOrder(p, revents, k, l);
    }
    forall fd | fd in p.index && revents[p.index[fd]] > 0 ensures Reported(a, fd) {
      ActiveFinds(p, revents, fd);
    }
  }

  lemma ActiveFaithful(p: Poll, revents: seq<int>, k: nat)
    requires Inv(p) && Answer(p, revents) && k < |Active(Polled(p, revents).fds)|
    ensures var e := Active(Polled(p, revents).fds)[k]; Faithful(p, revents, e) && Decode(e.fd) == e.fd
  {
    hide Active;
    var fds := Polled(p, revents).fds;
    ActiveMembers(fds);
    assert Active(fds)[k] in Active(fds);
    ReportedIsRegistered(p, revents, Active(fds)[k]);
  }

  lemma ActiveInOrder(p: Poll, revents: seq<int>, k: nat, l: nat)
    requires Inv(p) && Answer(p, revents) && k < l < |Active(Polled(p, revents).fds)|
    ensures var a := Active(Polled(p, revents).fds); Before(p, a[k].fd, a[l].fd)
  {
    hide Active;
    var q := Polled(p, revents);
    ActiveFaithful(p, revents, k);
    ActiveFaithful(p, revents, l);
    PolledKeeps(p, revents);
    ActiveOrdered(q, |q.fds|);
    assert q.fds[..|q.fds|] == q.fds;
    assert Active(q.fds[..|q.fds|]) == Active(q.fds);
  }

  lemma ActiveFinds(p: Poll, revents: seq<int>, fd: int)
    requires Inv(p) && Answer(p, revents)
    requires fd in p.index && revents[p.index[fd]] > 0
    ensures Reported(Active(Polled(p, revents).fds), fd)
  {
    var q := Polled(p, revents);
    var e := q.fds[p.index[fd]];
    ActiveMembers(q.fds);
    assert e in q.fds && e in Active(q.fds);
    var k :| 0 <= k < |Active(q.fds)| && Active(q.fds)[k] == e;
    assert Active(q.fds)[k].fd == fd;
  }

  /** The descriptor is registered and enabled, and what is reported for it is what poll answered. */
  ghost predicate Faithful(p: Poll, revents: seq<int>, e: PollFd)
    requires Inv(p) && |revents| == |p.fds|
  {
    e.fd in p.index && !Disabled(p, e.fd) && e.revents == revents[p.index[e.fd]] > 0
  }

  predicate DistinctFds(a: seq<PollFd>) {
    forall k, l :: 0 <= k < l < |a| ==> a[k].fd != a[l].fd
  }

  predicate Before(p: Poll, f: int, g: int) {
    f in p.index && g in p.index && p.index[f] < p.index[g]
  }

  predicate Reported(a: seq<PollFd>, fd: int) {
    exists k :: 0 <= k < |a| && a[k].fd == fd
  }

  lemma ReportedIsRegistered(p: Poll, revents: seq<int>, e: PollFd)
    requires Inv(p) && Answer(p, revents)
    requires e in Polled(p, revents).fds && e.revents > 0
    ensures Faithful(p, revents, e) && Decode(e.fd) == e.fd
  {
    var q := Polled(p, revents);
    var i :| 0 <= i < |q.fds| && q.fds[i] == e;
    assert Decode(p.fds[i].fd) in p.index;
  }

  // ---------- the first channel ----------

  /** The channel in the first slot stays there through any run that does not remove it. */
  lemma {:induction false} FirstStays(p: Poll, ops: seq<Op>, fd: int)
    requires AllowedRun(p, ops) && fd in p.index && p.index[fd] == 0
    requires Drop(fd) !in ops
    ensures Inv(Run(p, ops)) && fd in Run(p, ops).index && Run(p, ops).index[fd] == 0
    decreases |ops|
  {
    if ops != [] {
      assert ops[0] in ops;
      FirstStep(p, ops[0], fd);
      FirstStays(Apply(p, ops[0]), ops[1..], fd);
    }
  }

  lemma FirstStep(p: Poll, op: Op, fd: int)
    requires Inv(p) && Allowed(p, op) && op != Drop(fd) && fd in p.index && p.index[fd] == 0
    ensures Inv(Apply(p, op)) && fd in Apply(p, op).index && Apply(p, op).index[fd] == 0
  {
    if op.Change? {
      UpdateInv(p, op.fd, op.events);
    } else {
      RemoveInv(p, op.fd);
      LastSlot(p, op.fd);
    }
  }

  /** The channel registered first is dispatched first whenever poll reports it: nothing that another
      handler does in the same round comes between. */
  lemma FirstDispatchedFirst(fd: int, events: int, ops: seq<Op>, revents: seq<int>)
    requires fd >= 0 && AllowedRun(EMPTY, [Change(fd, events)] + ops) && Drop(fd) !in ops
    requires Answer(Run(EMPTY, [Change(fd, events)] + ops), revents)
    ensures var p := Run(EMPTY, [Change(fd, events)] + ops);
            var a := Active(Polled(p, revents).fds);
            && Inv(p) && fd in p.index && p.index[fd] == 0
            && (revents[0] > 0 ==> a != [] && a[0].fd == fd)
  {
    assert ([Change(fd, events)] + ops)[1..] == ops;
    FirstStays(Update(EMPTY, fd, events), ops, fd);
    var p := Run(EMPTY, [Change(fd, events)] + ops);
    if revents[0] > 0 {
      ActiveExact(p, revents);
      var a := Active(Polled(p, revents).fds);
      assert Reported(a, fd);
      var k :| 0 <= k < |a| && a[k].fd == fd;
      assert k > 0 ==> Before(p, a[0].fd, a[k].fd);
    }
  }
}

module Pollers {
  import opened Numbers
  import opened PollSet

  class Channel {
    const fd: int
    var events: int
    var revents: int
    var index: int

    constructor (fd: int)
      ensures this.fd == fd && events == 0 && revents == 0 && index == -1
    {
      this.fd, events, revents, index := fd, 0, 0, -1;
    }
  }

  class Poller {
    var pollfds: seq<PollFd>
    var channels: map<int, Channel>

    /** Every channel is filed under its own descriptor, which never changes. */
    ghost predicate Filed()
      reads this
    {
      forall fd :: fd in channels ==> channels[fd].fd == fd
    }

    ghost predicate Valid()
      reads this, channels.Values`index
    {
      Filed() && Inv(State())
    }

    ghost function State(): Poll
      reads this, channels.Values`index
      ensures State().fds == pollfds && State().index.Keys == channels.Keys && |State().index| == |channels|
      ensures forall fd :: fd in channels ==> State().index[fd] == channels[fd].index
    {
      var index := map fd | fd in channels :: channels[fd].index;
      assert index.Keys == channels.Keys;
      assert |index| == |index.Keys| == |channels.Keys| == |channels|;
      Poll(pollfds, index)
    }

    constructor ()
      ensures Valid() && State() == EMPTY && channels == map[]
    {
      pollfds, channels := [], map[];
    }

    /** The two branches carry the source's assertions; a channel that was removed keeps its old
        index, so it meets neither of them. */
    method UpdateChannel(channel: Channel)
      requires Valid() && channel.fd >= 0
      requires channel.index < 0 ==> channel.fd !in channels
      requires channel.index >= 0 ==> channel.fd in channels && channels[channel.fd] == channel
      modifies this, channel`index
      ensures Valid() && State() == Update(old(State()), channel.fd, channel.events)
      ensures channels == old(channels)[channel.fd := channel]
    {
      hide Inv, Update, State;
      UpdateInv(State(), channel.fd, channel.events);
      UpdateParts(State(), channel.fd, channel.events);
      if channel.index < 0 {
        pollfds := pollfds + [PollFd(channel.fd, channel.events, 0)];
        var idx := |pollfds| - 1;
        channel.index := idx;
        channels := channels[channel.fd := channel];
      } else {
        var idx := channel.index;
        assert 0 <= idx < |pollfds|;
        var pfd := pollfds[idx];
        assert pfd.fd == channel.fd || pfd.fd == -channel.fd - 1;
        pollfds := pollfds[idx := PollFd(if channel.events == 0 then -channel.fd - 1 else pfd.fd, channel.events, 0)];
        assert channels == old(channels)[channel.fd := channel];
      }
      Matches(Update(old(State()), channel.fd, channel.events));
    }

    /** The state is `p` when its parts are. */
    lemma Matches(p: Poll)
      requires pollfds == p.fds && channels.Keys == p.index.Keys
      requires forall fd :: fd in channels ==> channels[fd].index == p.index[fd]
      ensures State() == p
    {
      var index := State().index;
      assert index.Keys == p.index.Keys;
      forall fd | fd in index ensures index[fd] == p.index[fd] {
        assert fd in channels;
        assert index[fd] == channels[fd].index;
      }
      assert index == p.index;
    }

    lemma NotFiled(channel: Channel)
      requires Filed() && channel.fd !in channels
      ensures channel !in channels.Values
    {
      forall g | g in channels ensures channels[g] != channel {
        assert channels[g].fd == g;
      }
    }

    method SetIndex(fd: int, idx: int)
      requires Filed() && fd in channels
      modifies {channels[fd]}`index
      ensures forall g :: g in channels ==> channels[g].index == if g == fd then idx else old(channels[g].index)
    {
      channels[fd].index := idx;
    }

    method RemoveChannel(channel: Channel)
      requires Valid()
      requires channel.fd in channels && channels[channel.fd] == channel && channel.events == 0
      modifies this, channels.Values`index
      ensures Valid() && State() == Remove(old(State()), channel.fd)
      ensures channels == old(channels) - {channel.fd} && channel.index == old(channel.index) >= 0
    {
      hide Inv, Remove, State;
      ghost var p := State();
      RemoveInv(p, channel.fd);
      RemoveParts(p, channel.fd);
      LastSlot(p, channel.fd);
      var idx := channel.index;
      assert 0 <= idx < |channels|;
      channels := channels - {channel.fd};
      assert channels.Keys == Remove(p, channel.fd).index.Keys;
      NotFiled(channel);
      DropSlot(idx);
      Matches(Remove(p, channel.fd));
    }

    /** The slot is filled with the last one, whose channel learns its new position. */
    method DropSlot(idx: int)
      requires Filed() && 0 <= idx < |pollfds|
      requires idx < |pollfds| - 1 ==> Decode(pollfds[|pollfds| - 1].fd) in channels
      modifies `pollfds, channels.Values`index
      ensures var was, last := old(pollfds), |old(pollfds)| - 1;
              && pollfds == (if idx == last then was else was[idx := was[last]])[..last]
              && forall g :: g in channels ==>
                   channels[g].index == if idx != last && g == Decode(was[last].fd) then idx else old(channels[g].index)
    {
      var last := |pollfds| - 1;
      if idx == last {
        pollfds := pollfds[..last];
        assert forall g :: g in channels ==> channels[g].index == old(channels[g].index);
      } else {
        var channelAtEnd := pollfds[last].fd;
        pollfds := pollfds[idx := pollfds[last]];
        if channelAtEnd < 0 {
          channelAtEnd := -channelAtEnd - 1;
        }
        assert channelAtEnd == Decode(old(pollfds)[last].fd);
        SetIndex(channelAtEnd, idx);
        pollfds := pollfds[..last];
      }
    }

    /** The channels found so far are those of the slots `s`, each with what was reported for it. */
    ghost predicate Found(active: seq<Channel>, s: seq<PollFd>)
      reads this, active
    {
      && |active| == |s|
      && forall k :: 0 <= k < |s| ==>
           s[k].fd in channels && active[k] == channels[s[k].fd] && active[k].revents == s[k].revents
    }

    /** `channels_.find(pfd->fd)`, which always finds the channel of that descriptor. */
    method Lookup(i: nat) returns (channel: Channel)
      requires Valid() && OnlyEnabledReport(pollfds) && i < |pollfds| && pollfds[i].revents > 0
      ensures pollfds[i].fd in channels && channel == channels[pollfds[i].fd] && channel.fd == pollfds[i].fd
    {
      assert pollfds[i].fd in State().index;
      channel := channels[pollfds[i].fd];
    }

    /** One slot of the scan. */
    method Report(i: nat, active: seq<Channel>) returns (more: seq<Channel>)
      requires Valid() && OnlyEnabledReport(pollfds) && i < |pollfds| && pollfds[i].revents > 0
      requires Found(active, Active(pollfds[..i]))
      modifies channels.Values`revents
      ensures Valid() && State() == old(State())
      ensures Found(more, Active(pollfds[..i + 1]))
      ensures active <= more
      ensures forall fd :: fd in channels && channels[fd] !in more ==>
                channels[fd].revents == old(channels[fd].revents)
    {
      hide Inv, Active;
      ActiveStep(pollfds, i);
      NotYetActive(State(), i);
      var channel := Lookup(i);
      assert channel !in active;
      channel.revents := pollfds[i].revents;
      more := active + [channel];
    }

    /** The early-exit scan.  With `numEvents` the number poll returned, all active slots are found. */
    method FillActiveChannels(numEvents: nat) returns (active: seq<Channel>)
      requires Valid() && OnlyEnabledReport(pollfds)
      modifies channels.Values`revents
      ensures Valid() && State() == old(State())
      ensures Found(active, Active(pollfds)[..Min(numEvents, |Active(pollfds)|)])
      ensures forall fd :: fd in channels && channels[fd] !in active ==>
                channels[fd].revents == old(channels[fd].revents)
    {
      hide Inv;
      active := [];
      var remaining, i := numEvents, 0;
      while i < |pollfds| && remaining > 0
        invariant 0 <= i <= |pollfds|
        invariant Valid() && State() == old(State())
        invariant Found(active, Active(pollfds[..i])) && remaining == numEvents - |active|
        invariant forall fd :: fd in channels && channels[fd] !in active ==>
                    channels[fd].revents == old(channels[fd].revents)
      {
        ActiveStep(pollfds, i);
        if pollfds[i].revents > 0 {
          remaining := remaining - 1;
          active := Report(i, active);
        }
        i := i + 1;
      }
      ScanStops(pollfds, i, numEvents);
    }
  }
}
