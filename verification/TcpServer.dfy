/** The life of the connections of a server across its event loops (RN/net/TcpServer.h with
RN/net/EventLoop.cpp, RN/net/TcpConnection.cpp, RN/net/Channel.cpp and RN/net/Poller.cpp).

Loop 0 accepts and keeps the map of connections; every connection lives on one loop.  Closing one
goes from its loop to loop 0 and back by functors, and only the last of them takes its channel out of
the poll set.  Loops run concurrently; a step is one handler or functor of one loop.
*/
module Teardown {
  import opened ChannelEvents
  import opened Numbers
  import opened PollSet

  type ConnId = nat

  /** Since its creation: not yet established, established, closed with its removal queued or under
      way, removed from the map with its destruction queued, destroyed. */
  datatype Stage = Connecting | Open | Closing | Removed | Destroyed

  datatype Event = Up | Closed | Down

  datatype Conn = Conn(fd: int, home: nat, stage: Stage, history: seq<Event>)

  type Conns = map<ConnId, Conn>
  type ChannelMaps = seq<map<int, ConnId>>
  type Queues = seq<seq<Functor>>

  datatype Functor = Establish(c: ConnId) | Remove(c: ConnId) | Destroy(c: ConnId)

  datatype Pc = Polling | Dispatching | Running

  /** Every loop l has a program counter, a poll set, the poller's map of channels, the channels still
      to be dispatched, the functors still to be run in this round, and the pending ones.  The server
      has all connections ever made, its map of them, and its connection number. */
  datatype Server = Server(
    pc: seq<Pc>,
    polls: seq<Poll>,
    channels: ChannelMaps,
    active: seq<seq<ConnId>>,
    batch: Queues,
    pending: Queues,
    conns: Conns,
    connections: set<ConnId>,
    next: ConnId)

  const READ_EVENTS: int := 3

  predicate OnPoller(stage: Stage) {
    stage == Open || stage == Closing || stage == Removed
  }

  function Story(stage: Stage): seq<Event> {
    match stage
    case Connecting => []
    case Open => [Up]
    case Closing => [Up, Closed]
    case Removed => [Up, Closed]
    case Destroyed => [Up, Closed, Down]
  }

  // ---------- the invariant ----------

  ghost predicate Shape(s: Server) {
    && |s.pc| > 0
    && |s.pc| == |s.polls| == |s.channels| == |s.active| == |s.batch| == |s.pending|
    && (forall l :: 0 <= l < |s.pc| && s.active[l] != [] ==> s.pc[l] == Dispatching)
    && (forall l :: 0 <= l < |s.pc| && s.batch[l] != [] ==> s.pc[l] == Running)
  }

  /** Each poller is sound, and its map and its poll set have the same descriptors. */
  ghost predicate PollsOk(polls: seq<Poll>, channels: ChannelMaps) {
    && |polls| == |channels|
    && forall l :: 0 <= l < |polls| ==> PollSet.Inv(polls[l]) && polls[l].index.Keys == channels[l].Keys
  }

  /** The channel of a connection is the one its loop's poller has for its descriptor. */
  predicate Registered(channels: ChannelMaps, n: Conn, c: ConnId) {
    n.home < |channels| && n.fd in channels[n.home] && channels[n.home][n.fd] == c
  }

  /** Connections between establishment and destruction are registered; no two that are not destroyed
      share a descriptor; and each has lived just what its stage says. */
  ghost predicate ConnsOk(conns: Conns, channels: ChannelMaps, next: ConnId) {
    && (forall c :: c in conns ==>
          && c < next && conns[c].home < |channels| && conns[c].fd >= 0
          && conns[c].history == Story(conns[c].stage)
          && (OnPoller(conns[c].stage) ==> Registered(channels, conns[c], c)))
    && (forall c, d ::
          c in conns && d in conns && c != d && conns[c].stage != Destroyed && conns[d].stage != Destroyed ==>
          conns[c].fd != conns[d].fd)
  }

  predicate Silenced(polls: seq<Poll>, n: Conn) {
    n.home < |polls| && var p := polls[n.home];
    n.fd in p.index && 0 <= p.index[n.fd] < |p.fds| && p.fds[p.index[n.fd]].fd < 0
  }

  /** A closed connection cannot be reported by poll again. */
  ghost predicate ClosedOk(conns: Conns, polls: seq<Poll>) {
    forall c :: c in conns && (conns[c].stage == Closing || conns[c].stage == Removed) ==> Silenced(polls, conns[c])
  }

  /** Only such connections are registered. */
  ghost predicate ChannelsOk(channels: ChannelMaps, conns: Conns) {
    forall l, fd :: 0 <= l < |channels| && fd in channels[l] ==>
      var c := channels[l][fd];
      c in conns && conns[c].fd == fd && conns[c].home == l && OnPoller(conns[c].stage)
  }

  /** What is still to be dispatched is open, and nothing is there twice. */
  ghost predicate ActiveOk(active: seq<seq<ConnId>>, conns: Conns) {
    forall l :: 0 <= l < |active| ==> Dispatchable(active[l], l, conns)
  }

  ghost predicate Dispatchable(active: seq<ConnId>, l: int, conns: Conns) {
    && (forall c :: c in active ==> c in conns && conns[c].home == l && conns[c].stage == Open)
    && Distinct(active)
  }

  predicate Distinct(cs: seq<ConnId>) {
    forall i, j :: 0 <= i < j < |cs| ==> cs[i] != cs[j]
  }

  /** The server's map holds the connections until their removal. */
  ghost predicate MapOk(connections: set<ConnId>, conns: Conns) {
    && (forall c :: c in connections ==> c in conns)
    && (forall c :: c in conns ==> (c in connections <==> conns[c].stage in {Connecting, Open, Closing}))
  }

  /** Which functor each connection is waiting for, and on which loop. */
  predicate Due(conns: Conns, l: nat, f: Functor) {
    f.c in conns &&
    match f
    case Establish(c) => conns[c].stage == Connecting && conns[c].home == l
    case Remove(c) => conns[c].stage == Closing && l == 0
    case Destroy(c) => conns[c].stage == Removed && conns[c].home == l
  }

  /** A functor about to be queued, or just taken from the batch. */
  datatype Owed = Nothing | Owes(l: nat, f: Functor)

  ghost function Tally(batch: Queues, pending: Queues, l: nat, f: Functor): nat
    requires l < |batch| == |pending|
  {
    multiset(batch[l])[f] + multiset(pending[l])[f]
  }

  /** Every functor that is due is queued once, and nothing else is queued. */
  ghost predicate TokensOk(batch: Queues, pending: Queues, conns: Conns, owed: Owed) {
    && |batch| == |pending|
    && forall l: nat, f: Functor :: l < |batch| ==>
         Tally(batch, pending, l, f) + OneIf(owed == Owes(l, f)) == OneIf(Due(conns, l, f))
  }

  ghost predicate InvOwing(s: Server, owed: Owed) {
    && Shape(s)
    && PollsOk(s.polls, s.channels)
    && ConnsOk(s.conns, s.channels, s.next)
    && ClosedOk(s.conns, s.polls)
    && ChannelsOk(s.channels, s.conns)
    && ActiveOk(s.active, s.conns)
    && MapOk(s.connections, s.conns)
    && TokensOk(s.batch, s.pending, s.conns, owed)
  }

  ghost predicate Inv(s: Server) {
    InvOwing(s, Nothing)
  }

  // ---------- parts of steps ----------

  function Restaged(conns: Conns, c: ConnId, stage: Stage, events: seq<Event>): Conns
    requires c in conns
  {
    conns[c := conns[c].(stage := stage, history := conns[c].history + events)]
  }

  function Push(s: Server, l: nat, f: Functor): Server
    requires l < |s.pending|
  {
    s.(pending := s.pending[l := s.pending[l] + [f]])
  }

  function Pop(s: Server, l: nat): Server
    requires l < |s.batch| && s.batch[l] != []
  {
    s.(batch := s.batch[l := s.batch[l][1..]])
  }

  /** `createNewConneciton`, up to handing the connection to its loop. */
  function Create(s: Server, fd: int, home: nat): Server {
    s.(conns := s.conns[s.next := Conn(fd, home, Connecting, [])],
       connections := s.connections + {s.next},
       next := s.next + 1)
  }

  /** What the poller operations need: the source's assertions, and a poller in order. */
  ghost predicate Pollable(s: Server, c: ConnId) {
    && c in s.conns && s.conns[c].home < |s.polls| == |s.channels| && s.conns[c].fd >= 0
    && PollSet.Inv(s.polls[s.conns[c].home])
  }

  /** `connectionEstablished`: the channel is registered for reading. */
  ghost function EstablishNow(s: Server, c: ConnId): Server
    requires Pollable(s, c)
  {
    var n := s.conns[c];
    var channels: map<int, ConnId> := s.channels[n.home][n.fd := c];
    s.(polls := s.polls[n.home := Update(s.polls[n.home], n.fd, READ_EVENTS)],
       channels := s.channels[n.home := channels],
       conns := Restaged(s.conns, c, Open, [Up]))
  }

  /** `handleClose`, up to the close callback: the channel is silenced. */
  ghost function CloseNow(s: Server, c: ConnId): Server
    requires Pollable(s, c)
  {
    var n := s.conns[c];
    s.(polls := s.polls[n.home := Update(s.polls[n.home], n.fd, 0)], conns := Restaged(s.conns, c, Closing, [Closed]))
  }

  /** `removeConnectionInLoop`, up to queueing the destruction. */
  function RemoveNow(s: Server, c: ConnId): Server
    requires c in s.conns
  {
    s.(conns := Restaged(s.conns, c, Removed, []), connections := s.connections - {c})
  }

  /** `connectionDestroyed`: the channel is silenced once more, so that it may leave the poll set. */
  ghost function DestroyNow(s: Server, c: ConnId): Server
    requires Pollable(s, c) && s.conns[c].fd in s.polls[s.conns[c].home].index
  {
    var n := s.conns[c];
    UpdateKeeps(s.polls[n.home], n.fd, 0);
    s.(polls := s.polls[n.home := Apply(Update(s.polls[n.home], n.fd, 0), Drop(n.fd))],
       channels := s.channels[n.home := s.channels[n.home] - {n.fd}],
       conns := Restaged(s.conns, c, Destroyed, [Down]))
  }

  // ---------- the functors in flight ----------

  lemma TokensPush(batch: Queues, pending: Queues, conns: Conns, l: nat, f: Functor)
    requires TokensOk(batch, pending, conns, Owes(l, f)) && l < |pending|
    ensures TokensOk(batch, pending[l := pending[l] + [f]], conns, Nothing)
  {
    var p := pending[l := pending[l] + [f]];
    assert multiset(p[l]) == multiset(pending[l]) + multiset{f};
    forall k: nat, g: Functor | k < |batch| ensures Tally(batch, p, k, g) == OneIf(Due(conns, k, g)) {
      assert Tally(batch, pending, k, g) + OneIf(Owes(l, f) == Owes(k, g)) == OneIf(Due(conns, k, g));
    }
  }

  lemma TokensPop(batch: Queues, pending: Queues, conns: Conns, l: nat)
    requires TokensOk(batch, pending, conns, Nothing) && l < |batch| && batch[l] != []
    ensures TokensOk(batch[l := batch[l][1..]], pending, conns, Owes(l, batch[l][0])) && Due(conns, l, batch[l][0])
  {
    var f := batch[l][0];
    var b := batch[l := batch[l][1..]];
    assert batch[l] == [f] + b[l];
    assert multiset(batch[l]) == multiset{f} + multiset(b[l]);
    assert Tally(batch, pending, l, f) >= 1;
    forall k: nat, g: Functor | k < |batch|
      ensures Tally(b, pending, k, g) + OneIf(Owes(l, f) == Owes(k, g)) == OneIf(Due(conns, k, g))
    {
      assert Tally(batch, pending, k, g) == OneIf(Due(conns, k, g));
    }
  }

  lemma TokensSwap(batch: Queues, pending: Queues, conns: Conns, l: nat)
    requires TokensOk(batch, pending, conns, Nothing) && l < |batch| && batch[l] == []
    ensures TokensOk(batch[l := pending[l]], pending[l := []], conns, Nothing)
  {
    forall k: nat, g: Functor | k < |batch|
      ensures Tally(batch[l := pending[l]], pending[l := []], k, g) == OneIf(Due(conns, k, g))
    {
      assert Tally(batch, pending, k, g) == OneIf(Due(conns, k, g));
    }
  }

  /** A change of one connection moves what is due exactly as it moves what is owed. */
  lemma TokensMove(batch: Queues, pending: Queues, conns: Conns, after: Conns, owed: Owed, owes: Owed)
    requires TokensOk(batch, pending, conns, owed)
    requires forall l: nat, f: Functor :: l < |batch| ==>
               OneIf(Due(conns, l, f)) + OneIf(owes == Owes(l, f)) ==
               OneIf(Due(after, l, f)) + OneIf(owed == Owes(l, f))
    ensures TokensOk(batch, pending, after, owes)
  {
    forall k: nat, g: Functor | k < |batch|
      ensures Tally(batch, pending, k, g) + OneIf(owes == Owes(k, g)) == OneIf(Due(after, k, g))
    {
      assert Tally(batch, pending, k, g) + OneIf(owed == Owes(k, g)) == OneIf(Due(conns, k, g));
    }
  }

  // ---------- the poll sets ----------

  lemma PollsUpdate(polls: seq<Poll>, l: nat, fd: int, events: int)
    requires l < |polls| && PollSet.Inv(polls[l]) && fd >= 0
    ensures var q := polls[l := Update(polls[l], fd, events)];
            && PollSet.Inv(q[l]) && q[l].index.Keys == polls[l].index.Keys + {fd}
            && (forall n: Conn :: Silenced(polls, n) ==> Silenced(q, n))
            && (forall n: Conn :: n.home == l && n.fd == fd && fd in polls[l].index && events == 0 ==> Silenced(q, n))
  {
    UpdateKeeps(polls[l], fd, events);
  }

  lemma PollsRemove(polls: seq<Poll>, l: nat, fd: int)
    requires l < |polls| && PollSet.Inv(polls[l]) && fd in polls[l].index
    ensures var q := polls[l := PollSet.Remove(polls[l], fd)];
            && PollSet.Inv(q[l]) && q[l].index.Keys == polls[l].index.Keys - {fd}
            && (forall n: Conn :: Silenced(polls, n) && (n.home != l || n.fd != fd) ==> Silenced(q, n))
  {
    RemoveKeeps(polls[l], fd);
    var q := polls[l := PollSet.Remove(polls[l], fd)];
    forall n: Conn | Silenced(polls, n) && (n.home != l || n.fd != fd) ensures Silenced(q, n) {
      if n.home == l {
        assert Slot(PollSet.Remove(polls[l], fd), n.fd) == Slot(polls[l], n.fd);
      }
    }
  }

  // ---------- the parts keep the invariant ----------

  lemma PushKeeps(s: Server, l: nat, f: Functor)
    requires InvOwing(s, Owes(l, f)) && l < |s.pending|
    ensures Inv(Push(s, l, f))
  {
    hide PollsOk, ConnsOk, ClosedOk, ChannelsOk, ActiveOk, MapOk, TokensOk;
    TokensPush(s.batch, s.pending, s.conns, l, f);
  }

  lemma PopKeeps(s: Server, l: nat)
    requires Inv(s) && l < |s.batch| && s.batch[l] != []
    ensures InvOwing(Pop(s, l), Owes(l, s.batch[l][0])) && Due(s.conns, l, s.batch[l][0])
  {
    hide PollsOk, ConnsOk, ClosedOk, ChannelsOk, ActiveOk, MapOk, TokensOk;
    TokensPop(s.batch, s.pending, s.conns, l);
  }

  predicate FreeDescriptor(s: Server, fd: int) {
    fd >= 0 && forall c :: c in s.conns && s.conns[c].stage != Destroyed ==> s.conns[c].fd != fd
  }

  lemma CreateKeeps(s: Server, fd: int, home: nat)
    requires Inv(s) && home < |s.pc| && FreeDescriptor(s, fd)
    ensures InvOwing(Create(s, fd, home), Owes(home, Establish(s.next)))
  {
    hide PollsOk, ConnsOk, ClosedOk, ChannelsOk, ActiveOk, MapOk, TokensOk, Silenced;
    var t := Create(s, fd, home);
    PollsShape(s);
    CreateConns(s, fd, home);
    CreateOthers(s, fd, home);
    TokensMove(s.batch, s.pending, s.conns, t.conns, Nothing, Owes(home, Establish(s.next)));
  }

  lemma CreateConns(s: Server, fd: int, home: nat)
    requires ConnsOk(s.conns, s.channels, s.next) && home < |s.channels| && FreeDescriptor(s, fd)
    ensures s.next !in s.conns
    ensures var t := Create(s, fd, home); ConnsOk(t.conns, t.channels, t.next)
  {
  }

  lemma CreateOthers(s: Server, fd: int, home: nat)
    requires s.next !in s.conns
    requires ClosedOk(s.conns, s.polls) && ChannelsOk(s.channels, s.conns)
    requires ActiveOk(s.active, s.conns) && MapOk(s.connections, s.conns)
    ensures var t := Create(s, fd, home);
            && ClosedOk(t.conns, t.polls) && ChannelsOk(t.channels, t.conns)
            && ActiveOk(t.active, t.conns) && MapOk(t.connections, t.conns)
  {
    forall l | 0 <= l < |s.active| ensures Dispatchable(s.active[l], l, Create(s, fd, home).conns) {
      assert Dispatchable(s.active[l], l, s.conns);
    }
  }

  lemma PollsShape(s: Server)
    requires PollsOk(s.polls, s.channels)
    ensures |s.polls| == |s.channels|
  {
  }

  /** A connection that is not to be dispatched may change its stage. */
  lemma ActiveRestage(active: seq<seq<ConnId>>, conns: Conns, c: ConnId, stage: Stage, events: seq<Event>)
    requires ActiveOk(active, conns) && c in conns
    requires conns[c].stage != Open || (conns[c].home < |active| ==> c !in active[conns[c].home])
    ensures ActiveOk(active, Restaged(conns, c, stage, events))
  {
    forall l | 0 <= l < |active| ensures Dispatchable(active[l], l, Restaged(conns, c, stage, events)) {
      assert Dispatchable(active[l], l, conns);
      assert c !in active[l];
    }
  }

  lemma MapRestage(connections: set<ConnId>, conns: Conns, c: ConnId, stage: Stage, events: seq<Event>)
    requires MapOk(connections, conns) && c in conns
    ensures conns[c].stage in {Connecting, Open, Closing} && stage in {Connecting, Open, Closing} ==>
              MapOk(connections, Restaged(conns, c, stage, events))
    ensures conns[c].stage !in {Connecting, Open, Closing} && stage !in {Connecting, Open, Closing} ==>
              MapOk(connections, Restaged(conns, c, stage, events))
    ensures stage !in {Connecting, Open, Closing} ==> MapOk(connections - {c}, Restaged(conns, c, stage, events))
  {
  }

  /** Stages change along the story, with the channels the new stage asks for. */
  lemma ConnsRestage(conns: Conns, channels: ChannelMaps, after: ChannelMaps, next: ConnId,
                     c: ConnId, stage: Stage, events: seq<Event>)
    requires ConnsOk(conns, channels, next) && c in conns && |after| == |channels|
    requires conns[c].stage != Destroyed && Story(conns[c].stage) + events == Story(stage)
    requires OnPoller(stage) ==> Registered(after, conns[c], c)
    requires forall d :: d in conns && d != c && Registered(channels, conns[d], d) && OnPoller(conns[d].stage) ==>
               Registered(after, conns[d], d)
    ensures ConnsOk(Restaged(conns, c, stage, events), after, next)
  {
  }

  lemma ClosedRestage(conns: Conns, polls: seq<Poll>, after: seq<Poll>, c: ConnId, stage: Stage, events: seq<Event>)
    requires ClosedOk(conns, polls) && c in conns
    requires stage == Closing || stage == Removed ==> Silenced(after, conns[c])
    requires forall d :: d in conns && d != c && Silenced(polls, conns[d]) && conns[d].stage != Destroyed ==>
               Silenced(after, conns[d])
    ensures ClosedOk(Restaged(conns, c, stage, events), after)
  {
    forall d | d in conns && d != c && (conns[d].stage == Closing || conns[d].stage == Removed)
      ensures Silenced(after, conns[d])
    {
      assert Silenced(polls, conns[d]);
    }
    assert stage == Closing || stage == Removed ==> Silenced(after, Restaged(conns, c, stage, events)[c]);
  }

  lemma ChannelsRestage(channels: ChannelMaps, conns: Conns, c: ConnId, stage: Stage, events: seq<Event>)
    requires ChannelsOk(channels, conns) && c in conns && OnPoller(stage)
    ensures ChannelsOk(channels, Restaged(conns, c, stage, events))
  {
  }

  /** The source's assertions on the channel of a connection: it is registered, under its descriptor. */
  lemma IsPollable(s: Server, c: ConnId)
    requires PollsOk(s.polls, s.channels) && ConnsOk(s.conns, s.channels, s.next) && c in s.conns
    ensures Pollable(s, c)
    ensures OnPoller(s.conns[c].stage) ==>
              Registered(s.channels, s.conns[c], c) && s.conns[c].fd in s.polls[s.conns[c].home].index
  {
  }

  lemma PollsOkAfter(polls: seq<Poll>, channels: ChannelMaps, l: nat, poll: Poll, map': map<int, ConnId>)
    requires PollsOk(polls, channels) && l < |polls| && PollSet.Inv(poll) && poll.index.Keys == map'.Keys
    ensures PollsOk(polls[l := poll], channels[l := map'])
  {
  }

  lemma ClosePolls(s: Server, c: ConnId)
    requires PollsOk(s.polls, s.channels) && Pollable(s, c) && s.conns[c].fd in s.polls[s.conns[c].home].index
    ensures var t := CloseNow(s, c);
            && PollsOk(t.polls, s.channels) && Silenced(t.polls, s.conns[c])
            && forall m: Conn :: Silenced(s.polls, m) ==> Silenced(t.polls, m)
  {
    hide PollsOk, Silenced, PollSet.Inv;
    var n := s.conns[c];
    PollsUpdate(s.polls, n.home, n.fd, 0);
    var t := CloseNow(s, c);
    KeysHere(s, n.home);
    PollsOkAfter(s.polls, s.channels, n.home, t.polls[n.home], s.channels[n.home]);
    assert s.channels[n.home := s.channels[n.home]] == s.channels;
  }

  /** The first half of closing. */
  lemma CloseKeeps(s: Server, c: ConnId)
    requires Inv(s) && c in s.conns && s.conns[c].stage == Open && c !in s.active[s.conns[c].home]
    ensures Pollable(s, c) && InvOwing(CloseNow(s, c), Owes(0, Remove(c)))
  {
    hide PollsOk, ConnsOk, ClosedOk, ChannelsOk, ActiveOk, MapOk, TokensOk, Silenced, PollSet.Inv;
    IsPollable(s, c);
    var t := CloseNow(s, c);
    ClosePolls(s, c);
    ConnsRestage(s.conns, s.channels, s.channels, s.next, c, Closing, [Closed]);
    ClosedRestage(s.conns, s.polls, t.polls, c, Closing, [Closed]);
    ChannelsRestage(s.channels, s.conns, c, Closing, [Closed]);
    ActiveRestage(s.active, s.conns, c, Closing, [Closed]);
    MapRestage(s.connections, s.conns, c, Closing, [Closed]);
    TokensMove(s.batch, s.pending, s.conns, t.conns, Nothing, Owes(0, Remove(c)));
  }

  lemma KeysHere(s: Server, l: nat)
    requires PollsOk(s.polls, s.channels) && l < |s.polls|
    ensures |s.polls| == |s.channels| && PollSet.Inv(s.polls[l]) && s.polls[l].index.Keys == s.channels[l].Keys
  {
  }

  lemma RemoveNowKeeps(s: Server, c: ConnId)
    requires InvOwing(s, Owes(0, Remove(c))) && c in s.conns && s.conns[c].stage == Closing
    ensures InvOwing(RemoveNow(s, c), Owes(s.conns[c].home, Destroy(c)))
  {
    hide PollsOk, ConnsOk, ClosedOk, ChannelsOk, ActiveOk, MapOk, TokensOk, Silenced, PollSet.Inv;
    IsPollable(s, c);
    var t := RemoveNow(s, c);
    SilencedHere(s, c);
    ConnsRestage(s.conns, s.channels, s.channels, s.next, c, Removed, []);
    ClosedRestage(s.conns, s.polls, s.polls, c, Removed, []);
    ChannelsRestage(s.channels, s.conns, c, Removed, []);
    ActiveRestage(s.active, s.conns, c, Removed, []);
    MapRestage(s.connections, s.conns, c, Removed, []);
    TokensMove(s.batch, s.pending, s.conns, t.conns, Owes(0, Remove(c)), Owes(s.conns[c].home, Destroy(c)));
  }

  lemma SilencedHere(s: Server, c: ConnId)
    requires ClosedOk(s.conns, s.polls) && c in s.conns && (s.conns[c].stage == Closing || s.conns[c].stage == Removed)
    ensures Silenced(s.polls, s.conns[c])
  {
  }

  /** Establishing registers a descriptor that the poller does not have: nobody else alive uses it. */
  lemma NotYetRegistered(s: Server, c: ConnId)
    requires ConnsOk(s.conns, s.channels, s.next) && ChannelsOk(s.channels, s.conns)
    requires c in s.conns && s.conns[c].stage == Connecting
    ensures s.conns[c].home < |s.channels| && s.conns[c].fd !in s.channels[s.conns[c].home]
  {
  }

  lemma ChannelsAdd(channels: ChannelMaps, conns: Conns, c: ConnId, m: map<int, ConnId>)
    requires ChannelsOk(channels, conns) && c in conns && conns[c].home < |channels|
    requires m == channels[conns[c].home][conns[c].fd := c]
    ensures ChannelsOk(channels[conns[c].home := m], Restaged(conns, c, Open, [Up]))
  {
  }

  lemma EstablishKeeps(s: Server, c: ConnId)
    requires c in s.conns && s.conns[c].stage == Connecting && InvOwing(s, Owes(s.conns[c].home, Establish(c)))
    ensures Pollable(s, c) && s.conns[c].fd !in s.channels[s.conns[c].home] && Inv(EstablishNow(s, c))
  {
    hide PollsOk, ConnsOk, ClosedOk, ChannelsOk, ActiveOk, MapOk, TokensOk, Silenced, PollSet.Inv;
    IsPollable(s, c);
    NotYetRegistered(s, c);
    var n := s.conns[c];
    PollsUpdate(s.polls, n.home, n.fd, READ_EVENTS);
    var t := EstablishNow(s, c);
    KeysHere(s, n.home);
    PollsOkAfter(s.polls, s.channels, n.home, t.polls[n.home], t.channels[n.home]);
    ConnsRestage(s.conns, s.channels, t.channels, s.next, c, Open, [Up]);
    ClosedRestage(s.conns, s.polls, t.polls, c, Open, [Up]);
    ChannelsAdd(s.channels, s.conns, c, t.channels[n.home]);
    ActiveRestage(s.active, s.conns, c, Open, [Up]);
    MapRestage(s.connections, s.conns, c, Open, [Up]);
    TokensMove(s.batch, s.pending, s.conns, t.conns, Owes(n.home, Establish(c)), Nothing);
  }

  lemma ChannelsDrop(channels: ChannelMaps, conns: Conns, c: ConnId, next: ConnId)
    requires ChannelsOk(channels, conns) && ConnsOk(conns, channels, next)
    requires c in conns && Registered(channels, conns[c], c)
    ensures var left := channels[conns[c].home] - {conns[c].fd};
            ChannelsOk(channels[conns[c].home := left], Restaged(conns, c, Destroyed, [Down]))
  {
  }

  /** Another connection on the poller of `c` has another descriptor. */
  lemma OthersElsewhere(conns: Conns, channels: ChannelMaps, next: ConnId, c: ConnId)
    requires ConnsOk(conns, channels, next) && c in conns && conns[c].stage != Destroyed
    ensures forall d :: d in conns && d != c && conns[d].stage != Destroyed ==> conns[d].fd != conns[c].fd
  {
  }

  lemma DestroyPolls(s: Server, c: ConnId)
    requires PollsOk(s.polls, s.channels) && Pollable(s, c) && s.conns[c].fd in s.polls[s.conns[c].home].index
    ensures var t, n := DestroyNow(s, c), s.conns[c];
            && PollsOk(t.polls, t.channels)
            && forall m: Conn :: Silenced(s.polls, m) && (m.home != n.home || m.fd != n.fd) ==> Silenced(t.polls, m)
  {
    hide PollsOk, Silenced, PollSet.Inv;
    var n := s.conns[c];
    PollsUpdate(s.polls, n.home, n.fd, 0);
    var polls := s.polls[n.home := Update(s.polls[n.home], n.fd, 0)];
    PollsRemove(polls, n.home, n.fd);
    var t := DestroyNow(s, c);
    assert t.polls == polls[n.home := PollSet.Remove(polls[n.home], n.fd)];
    KeysHere(s, n.home);
    PollsOkAfter(s.polls, s.channels, n.home, t.polls[n.home], t.channels[n.home]);
  }

  lemma DestroyKeeps(s: Server, c: ConnId)
    requires c in s.conns && s.conns[c].stage == Removed && InvOwing(s, Owes(s.conns[c].home, Destroy(c)))
    ensures Pollable(s, c) && Registered(s.channels, s.conns[c], c) && s.conns[c].fd in s.polls[s.conns[c].home].index
    ensures Inv(DestroyNow(s, c))
  {
    hide PollsOk, ConnsOk, ClosedOk, ChannelsOk, ActiveOk, MapOk, TokensOk, Silenced, PollSet.Inv;
    IsPollable(s, c);
    var n := s.conns[c];
    var t := DestroyNow(s, c);
    DestroyPolls(s, c);
    OthersElsewhere(s.conns, s.channels, s.next, c);
    ConnsRestage(s.conns, s.channels, t.channels, s.next, c, Destroyed, [Down]);
    ClosedRestage(s.conns, s.polls, t.polls, c, Destroyed, [Down]);
    ChannelsDrop(s.channels, s.conns, c, s.next);
    ActiveRestage(s.active, s.conns, c, Destroyed, [Down]);
    MapRestage(s.connections, s.conns, c, Destroyed, [Down]);
    TokensMove(s.batch, s.pending, s.conns, t.conns, Owes(n.home, Destroy(c)), Nothing);
  }

  // ---------- steps ----------

  /** `Accept` is the acceptor's handler, for a descriptor the kernel does not use; `Handle` that of
      the next active channel, with what poll reported for it and whether a read finds the end of the
      stream; `UserUpdate` any change of a registered channel's events by code running on its loop. */
  datatype Action =
    | PollReturns(l: nat, revents: seq<int>)
    | Accept(fd: int, home: nat)
    | Handle(l: nat, report: Revents, endOfStream: bool)
    | UserUpdate(c: ConnId, events: int)
    | EndDispatch(l: nat)
    | RunOne(l: nat)
    | EndRound(l: nat)

  predicate Enabled(s: Server, a: Action)
    requires Shape(s)
  {
    match a
    case PollReturns(l, revents) => l < |s.pc| && s.pc[l] == Polling && Answer(s.polls[l], revents)
    case Accept(fd, home) => s.pc[0] == Dispatching && home < |s.pc| && FreeDescriptor(s, fd)
    case Handle(l, report, _) => l < |s.pc| && s.active[l] != [] && HangupAlone(report)
    case UserUpdate(c, _) =>
      c in s.conns && s.conns[c].home < |s.pc| && s.pc[s.conns[c].home] != Polling && OnPoller(s.conns[c].stage)
    case EndDispatch(l) => l < |s.pc| && s.pc[l] == Dispatching && s.active[l] == []
    case RunOne(l) => l < |s.pc| && s.batch[l] != []
    case EndRound(l) => l < |s.pc| && s.pc[l] == Running && s.batch[l] == []
  }

  function Reports(a: seq<PollFd>, channels: map<int, ConnId>): seq<ConnId> {
    if a == [] then []
    else
      var k := |a| - 1;
      Reports(a[..k], channels) + (if a[k].fd in channels then [channels[a[k].fd]] else [])
  }

  /** `removeConnection`, called by the close callback on loop l. */
  function RemoveFrom(s: Server, l: nat, c: ConnId): Server
    requires c in s.conns && s.conns[c].home < |s.pending|
  {
    if l == 0 then Push(RemoveNow(s, c), s.conns[c].home, Destroy(c)) else Push(s, 0, Remove(c))
  }

  /** `handleClose` run `times` times on loop l.  A second time would queue a second removal, and
      with it a second destruction. */
  ghost function ClosedTimes(s: Server, l: nat, c: ConnId, times: nat): Server
    requires times <= 1
    requires Pollable(s, c) && s.conns[c].home < |s.pending| && |s.pending| > 0
  {
    if times == 0 then s else RemoveFrom(CloseNow(s, c), l, c)
  }

  /** `handleEvent` on the next active channel. */
  ghost function Handled(s: Server, l: nat, report: Revents, endOfStream: bool): Server
    requires Inv(s) && Enabled(s, Handle(l, report, endOfStream))
  {
    HandleReady(s, l);
    OneCloseAtMost(report, endOfStream);
    var s1 := s.(active := s.active[l := s.active[l][1..]]);
    ClosedTimes(s1, l, s.active[l][0], Closes(HandleEvent(report), endOfStream))
  }

  /** Dispatch safety for one step: the channel about to be handled is registered and open. */
  lemma HandleReady(s: Server, l: nat)
    requires Inv(s) && l < |s.pc| && s.active[l] != []
    ensures var c := s.active[l][0];
            var s1 := s.(active := s.active[l := s.active[l][1..]]);
            && Inv(s1) && Pollable(s1, c) && s.conns[c].stage == Open && s.conns[c].home == l && c !in s1.active[l]
            && Registered(s.channels, s.conns[c], c) && s.conns[c].fd in s.polls[l].index
  {
    hide PollsOk, ConnsOk, ClosedOk, ChannelsOk, MapOk, TokensOk, PollSet.Inv;
    assert Dispatchable(s.active[l], l, s.conns);
    assert s.active[l][0] in s.active[l];
    IsPollable(s, s.active[l][0]);
    ActiveTail(s.active, s.conns, l);
  }

  lemma ActiveTail(active: seq<seq<ConnId>>, conns: Conns, l: nat)
    requires ActiveOk(active, conns) && l < |active| && active[l] != []
    ensures ActiveOk(active[l := active[l][1..]], conns) && active[l][0] !in active[l][1..]
  {
    assert Dispatchable(active[l], l, conns);
  }

  ghost function Accepted(s: Server, fd: int, home: nat): Server
    requires Inv(s) && Enabled(s, Accept(fd, home))
  {
    CreateKeeps(s, fd, home);
    var s1 := Create(s, fd, home);
    if home == 0 then EstablishKeeps(s1, s.next); EstablishNow(s1, s.next) else Push(s1, home, Establish(s.next))
  }

  ghost function Called(s: Server, l: nat): Server
    requires Inv(s) && Enabled(s, RunOne(l))
  {
    PopKeeps(s, l);
    var f := s.batch[l][0];
    var s1 := Pop(s, l);
    match f
    case Establish(c) => EstablishKeeps(s1, c); EstablishNow(s1, c)
    case Remove(c) => HomeExists(s1, c); Push(RemoveNow(s1, c), s1.conns[c].home, Destroy(c))
    case Destroy(c) => DestroyKeeps(s1, c); DestroyNow(s1, c)
  }

  lemma HomeExists(s: Server, c: ConnId)
    requires Shape(s) && PollsOk(s.polls, s.channels) && ConnsOk(s.conns, s.channels, s.next) && c in s.conns
    ensures s.conns[c].home < |s.pending| && s.conns[c].fd >= 0 && PollSet.Inv(s.polls[s.conns[c].home])
  {
  }

  ghost function Next(s: Server, a: Action): Server
    requires Inv(s) && Enabled(s, a)
  {
    match a
    case PollReturns(l, revents) =>
      var poll := Polled(s.polls[l], revents);
      var active := Reports(Active(poll.fds), s.channels[l]);
      s.(polls := s.polls[l := poll], active := s.active[l := active], pc := s.pc[l := Dispatching])
    case Accept(fd, home) => Accepted(s, fd, home)
    case Handle(l, report, endOfStream) => Handled(s, l, report, endOfStream)
    case UserUpdate(c, events) =>
      HomeExists(s, c);
      s.(polls := s.polls[s.conns[c].home := Update(s.polls[s.conns[c].home], s.conns[c].fd, events)])
    case EndDispatch(l) =>
      s.(pc := s.pc[l := Running], batch := s.batch[l := s.pending[l]], pending := s.pending[l := []])
    case RunOne(l) => Called(s, l)
    case EndRound(l) => s.(pc := s.pc[l := Polling])
  }

  lemma HandleKeeps(s: Server, l: nat, report: Revents, endOfStream: bool)
    requires Inv(s) && Enabled(s, Handle(l, report, endOfStream))
    ensures Inv(Handled(s, l, report, endOfStream))
  {
    hide PollsOk, ConnsOk, ClosedOk, ChannelsOk, ActiveOk, MapOk, TokensOk, PollSet.Inv;
    HandleReady(s, l);
    OneCloseAtMost(report, endOfStream);
    var c := s.active[l][0];
    var s1 := s.(active := s.active[l := s.active[l][1..]]);
    if Closes(HandleEvent(report), endOfStream) == 1 {
      CloseKeeps(s1, c);
      var s2 := CloseNow(s1, c);
      if l == 0 {
        RemoveNowKeeps(s2, c);
        PushKeeps(RemoveNow(s2, c), s.conns[c].home, Destroy(c));
      } else {
        PushKeeps(s2, 0, Remove(c));
      }
    }
  }

  lemma AcceptKeeps(s: Server, fd: int, home: nat)
    requires Inv(s) && Enabled(s, Accept(fd, home))
    ensures Inv(Accepted(s, fd, home))
  {
    hide PollsOk, ConnsOk, ClosedOk, ChannelsOk, ActiveOk, MapOk, TokensOk, PollSet.Inv;
    CreateKeeps(s, fd, home);
    if home == 0 {
      EstablishKeeps(Create(s, fd, home), s.next);
    } else {
      PushKeeps(Create(s, fd, home), home, Establish(s.next));
    }
  }

  lemma CallKeeps(s: Server, l: nat)
    requires Inv(s) && Enabled(s, RunOne(l))
    ensures Inv(Called(s, l))
  {
    hide PollsOk, ConnsOk, ClosedOk, ChannelsOk, ActiveOk, MapOk, TokensOk, PollSet.Inv;
    PopKeeps(s, l);
    var s1 := Pop(s, l);
    match s.batch[l][0]
    case Establish(c) => EstablishKeeps(s1, c);
    case Remove(c) =>
      HomeExists(s1, c);
      RemoveNowKeeps(s1, c);
      PushKeeps(RemoveNow(s1, c), s1.conns[c].home, Destroy(c));
    case Destroy(c) => DestroyKeeps(s1, c);
  }

  lemma UserUpdateKeeps(s: Server, c: ConnId, events: int)
    requires Inv(s) && Enabled(s, UserUpdate(c, events))
    ensures Inv(Next(s, UserUpdate(c, events)))
  {
    hide ConnsOk, ChannelsOk, ActiveOk, MapOk, TokensOk, Silenced, PollSet.Inv;
    IsPollable(s, c);
    var n := s.conns[c];
    PollsUpdate(s.polls, n.home, n.fd, events);
    var t := Next(s, UserUpdate(c, events));
    PollsOkAfter(s.polls, s.channels, n.home, t.polls[n.home], s.channels[n.home]);
    assert s.channels[n.home := s.channels[n.home]] == s.channels;
  }

  // ---------- what poll reports ----------

  lemma {:induction false} ReportsMembers(a: seq<PollFd>, channels: map<int, ConnId>)
    ensures forall c :: c in Reports(a, channels) ==>
              exists k :: 0 <= k < |a| && a[k].fd in channels && channels[a[k].fd] == c
    decreases |a|
  {
    if a != [] {
      ReportsMembers(a[..|a| - 1], channels);
      forall c | c in Reports(a, channels)
        ensures exists k :: 0 <= k < |a| && a[k].fd in channels && channels[a[k].fd] == c
      {
        if c in Reports(a[..|a| - 1], channels) {
          var k :| 0 <= k < |a| - 1 && a[k].fd in channels && channels[a[k].fd] == c;
        } else {
          assert channels[a[|a| - 1].fd] == c;
        }
      }
    }
  }

  lemma {:induction false} ReportsDistinct(a: seq<PollFd>, channels: map<int, ConnId>)
    requires DistinctFds(a)
    requires forall f, g :: f in channels && g in channels && channels[f] == channels[g] ==> f == g
    ensures Distinct(Reports(a, channels))
    decreases |a|
  {
    if a != [] {
      var k := |a| - 1;
      ReportsDistinct(a[..k], channels);
      ReportsMembers(a[..k], channels);
      assert DistinctFds(a[..k]);
      if a[k].fd in channels {
        assert forall i :: 0 <= i < k ==> a[i].fd != a[k].fd;
        DistinctSnoc(Reports(a[..k], channels), channels[a[k].fd]);
      }
    }
  }

  lemma DistinctSnoc(r: seq<ConnId>, c: ConnId)
    requires c !in r && Distinct(r)
    ensures Distinct(r + [c])
  {
  }

  lemma {:induction false} ReportsAll(a: seq<PollFd>, channels: map<int, ConnId>, k: nat)
    requires k < |a| && a[k].fd in channels
    ensures channels[a[k].fd] in Reports(a, channels)
    decreases |a|
  {
    if k < |a| - 1 {
      ReportsAll(a[..|a| - 1], channels, k);
    }
  }

  /** Poll has something to report for the connection's descriptor. */
  predicate HasReport(polls: seq<Poll>, n: Conn, revents: seq<int>) {
    n.home < |polls| && var p := polls[n.home];
    n.fd in p.index && 0 <= p.index[n.fd] < |revents| && revents[p.index[n.fd]] > 0
  }

  /** The handlers run after a poll are those of just the connections on that loop with something
      reported, each once; and they are all open, since those closed are disabled, and stay so. */
  lemma ReportsOpen(s: Server, l: nat, revents: seq<int>)
    requires Inv(s) && l < |s.pc| && Answer(s.polls[l], revents)
    ensures var reports := Reports(Active(Polled(s.polls[l], revents).fds), s.channels[l]);
            && Dispatchable(reports, l, s.conns)
            && forall c :: c in s.conns && s.conns[c].home == l && OnPoller(s.conns[c].stage) ==>
                 (c in reports <==> HasReport(s.polls, s.conns[c], revents))
  {
    hide PollsOk, ConnsOk, ChannelsOk, ClosedOk, ActiveOk, MapOk, TokensOk, Dispatchable, Reports, Active;
    KeysHere(s, l);
    ReportsOnlyOpen(s, l, revents);
    forall c | c in s.conns && s.conns[c].home == l && OnPoller(s.conns[c].stage)
      ensures c in Reports(Active(Polled(s.polls[l], revents).fds), s.channels[l]) <==>
              HasReport(s.polls, s.conns[c], revents)
    {
      HasReportExact(s, l, revents, c);
    }
  }

  lemma HasReportExact(s: Server, l: nat, revents: seq<int>, c: ConnId)
    requires Inv(s) && l < |s.pc| && Answer(s.polls[l], revents)
    requires c in s.conns && s.conns[c].home == l && OnPoller(s.conns[c].stage)
    ensures c in Reports(Active(Polled(s.polls[l], revents).fds), s.channels[l]) <==>
            HasReport(s.polls, s.conns[c], revents)
  {
    hide PollsOk, ConnsOk, ChannelsOk, ClosedOk, ActiveOk, MapOk, TokensOk, PollSet.Inv, Active;
    KeysHere(s, l);
    IsPollable(s, c);
    SlotThere(s.polls[l], s.conns[c].fd);
    ActiveExact(s.polls[l], revents);
    OneDescriptorEach(s.channels, s.conns, l);
    var a, fd := Active(Polled(s.polls[l], revents).fds), s.conns[c].fd;
    if HasReport(s.polls, s.conns[c], revents) {
      assert PollSet.Reported(a, fd);
      var k :| 0 <= k < |a| && a[k].fd == fd;
      ReportsAll(a, s.channels[l], k);
    }
    if c in Reports(a, s.channels[l]) {
      ReportsMembers(a, s.channels[l]);
      var k :| 0 <= k < |a| && a[k].fd in s.channels[l] && s.channels[l][a[k].fd] == c;
      assert a[k].fd == fd && Faithful(s.polls[l], revents, a[k]);
    }
  }

  lemma SlotThere(p: Poll, fd: int)
    requires PollSet.Inv(p) && fd in p.index
    ensures 0 <= p.index[fd] < |p.fds|
  {
  }

  lemma ReportsOnlyOpen(s: Server, l: nat, revents: seq<int>)
    requires Inv(s) && l < |s.pc| && Answer(s.polls[l], revents)
    ensures Dispatchable(Reports(Active(Polled(s.polls[l], revents).fds), s.channels[l]), l, s.conns)
  {
    hide ConnsOk, ActiveOk, MapOk, TokensOk, PollSet.Inv, Active;
    KeysHere(s, l);
    ActiveExact(s.polls[l], revents);
    var a := Active(Polled(s.polls[l], revents).fds);
    ReportsMembers(a, s.channels[l]);
    forall c | c in Reports(a, s.channels[l]) ensures c in s.conns && s.conns[c].home == l && s.conns[c].stage == Open {
      var k :| 0 <= k < |a| && a[k].fd in s.channels[l] && s.channels[l][a[k].fd] == c;
      assert Faithful(s.polls[l], revents, a[k]);
      assert s.conns[c].fd == a[k].fd;
    }
    OneDescriptorEach(s.channels, s.conns, l);
    ReportsDistinct(a, s.channels[l]);
  }

  lemma OneDescriptorEach(channels: ChannelMaps, conns: Conns, l: nat)
    requires ChannelsOk(channels, conns) && l < |channels|
    ensures forall f, g :: f in channels[l] && g in channels[l] && channels[l][f] == channels[l][g] ==> f == g
  {
  }

  lemma PollKeeps(s: Server, l: nat, revents: seq<int>)
    requires Inv(s) && Enabled(s, PollReturns(l, revents))
    ensures Inv(Next(s, PollReturns(l, revents)))
  {
    hide ConnsOk, ChannelsOk, MapOk, TokensOk, PollSet.Inv, Dispatchable, Active, Reports;
    ReportsOpen(s, l, revents);
    KeysHere(s, l);
    PolledKeeps(s.polls[l], revents);
    var t := Next(s, PollReturns(l, revents));
    PollsOkAfter(s.polls, s.channels, l, t.polls[l], s.channels[l]);
    assert s.channels[l := s.channels[l]] == s.channels;
    assert forall n: Conn :: Silenced(s.polls, n) ==> Silenced(t.polls, n);
  }

  lemma StepKeeps(s: Server, a: Action)
    requires Inv(s) && Enabled(s, a)
    ensures Inv(Next(s, a))
  {
    hide PollsOk, ConnsOk, ClosedOk, ChannelsOk, ActiveOk, MapOk, TokensOk, PollSet.Inv;
    match a
    case PollReturns(l, revents) => PollKeeps(s, l, revents);
    case Accept(fd, home) => AcceptKeeps(s, fd, home);
    case Handle(l, report, endOfStream) => HandleKeeps(s, l, report, endOfStream);
    case UserUpdate(c, events) => UserUpdateKeeps(s, c, events);
    case EndDispatch(l) => TokensSwap(s.batch, s.pending, s.conns, l);
    case RunOne(l) => CallKeeps(s, l);
    case EndRound(l) =>
  }

  // ---------- what every step does ----------

  /** The report, with what a read finds, ends the connection. */
  predicate Ends(report: Revents, endOfStream: bool) {
    (report.hup && !report.in_) || ((report.in_ || report.pri || report.rdhup) && endOfStream)
  }

  /** Connection c, and no other, goes on to `stage` and has lived `events` more. */
  predicate Moved(before: Conns, after: Conns, c: ConnId, stage: Stage, events: seq<Event>) {
    && c in before && after.Keys == before.Keys
    && after[c] == before[c].(stage := stage, history := before[c].history + events)
    && forall d :: d in before && d != c ==> after[d] == before[d]
  }

  predicate Queued(before: Queues, after: Queues, l: nat, f: Functor) {
    l < |before| && after == before[l := before[l] + [f]]
  }

  /** The connection's slot asks for `events`. */
  predicate Watched(polls: seq<Poll>, n: Conn, events: int) {
    n.home < |polls| && var p := polls[n.home];
    n.fd in p.index && 0 <= p.index[n.fd] < |p.fds| && p.fds[p.index[n.fd]].events == events
  }

  /** The handler of connection c on loop l: what ends it closes it, and queues what comes next. */
  ghost predicate HandleEffect(s: Server, t: Server, l: nat, c: ConnId, ends: bool) {
    if !ends then t.conns == s.conns && t.pending == s.pending
    else if l == 0 then Moved(s.conns, t.conns, c, Removed, [Closed]) && Queued(s.pending, t.pending, 0, Destroy(c))
    else Moved(s.conns, t.conns, c, Closing, [Closed]) && Queued(s.pending, t.pending, 0, Remove(c))
  }

  ghost predicate CallEffect(s: Server, t: Server, f: Functor) {
    match f
    case Establish(c) =>
      && Moved(s.conns, t.conns, c, Open, [Up]) && t.pending == s.pending
      && Watched(t.polls, t.conns[c], READ_EVENTS) && !Silenced(t.polls, t.conns[c])
    case Remove(c) =>
      Moved(s.conns, t.conns, c, Removed, []) && Queued(s.pending, t.pending, s.conns[c].home, Destroy(c))
    case Destroy(c) => Moved(s.conns, t.conns, c, Destroyed, [Down]) && t.pending == s.pending
  }

  ghost predicate AcceptEffect(s: Server, t: Server, fd: int, home: nat) {
    && t.next == s.next + 1
    && if home == 0
       then && t.conns == s.conns[s.next := Conn(fd, home, Open, [Up])] && t.pending == s.pending
            && Watched(t.polls, t.conns[s.next], READ_EVENTS) && !Silenced(t.polls, t.conns[s.next])
       else && t.conns == s.conns[s.next := Conn(fd, home, Connecting, [])]
            && Queued(s.pending, t.pending, home, Establish(s.next))
  }

  /** What a step from `s` to `t` does to the connections, the queues and the loops. */
  ghost predicate Effect(s: Server, a: Action, t: Server)
    requires Shape(s) && Enabled(s, a)
  {
    match a
    case PollReturns(l, revents) =>
      && t.conns == s.conns && t.batch == s.batch && t.pending == s.pending && t.pc == s.pc[l := Dispatching]
      && |t.active| == |s.active| && t.active == s.active[l := t.active[l]]
      && forall c :: c in s.conns && s.conns[c].home == l && OnPoller(s.conns[c].stage) ==>
           (c in t.active[l] <==> HasReport(s.polls, s.conns[c], revents))
    case Accept(fd, home) =>
      t.pc == s.pc && t.active == s.active && t.batch == s.batch && AcceptEffect(s, t, fd, home)
    case Handle(l, report, endOfStream) =>
      && t.pc == s.pc && t.active == s.active[l := s.active[l][1..]] && t.batch == s.batch
      && HandleEffect(s, t, l, s.active[l][0], Ends(report, endOfStream))
    case UserUpdate(c, events) =>
      && t.conns == s.conns && t.pc == s.pc && t.active == s.active && t.batch == s.batch && t.pending == s.pending
      && Watched(t.polls, t.conns[c], events)
    case EndDispatch(l) =>
      && t.conns == s.conns && t.pc == s.pc[l := Running] && t.active == s.active
      && t.batch == s.batch[l := s.pending[l]] && t.pending == s.pending[l := []]
    case RunOne(l) =>
      && t.pc == s.pc && t.active == s.active && t.batch == s.batch[l := s.batch[l][1..]]
      && CallEffect(s, t, s.batch[l][0])
    case EndRound(l) =>
      && t.conns == s.conns && t.pc == s.pc[l := Polling]
      && t.active == s.active && t.batch == s.batch && t.pending == s.pending
  }

  lemma HandledExact(s: Server, l: nat, report: Revents, endOfStream: bool)
    requires Inv(s) && Enabled(s, Handle(l, report, endOfStream))
    ensures Effect(s, Handle(l, report, endOfStream), Handled(s, l, report, endOfStream))
  {
    hide PollsOk, ConnsOk, ClosedOk, ChannelsOk, ActiveOk, MapOk, TokensOk, PollSet.Inv, Closes, HandleEvent;
    HandleReady(s, l);
    OneCloseAtMost(report, endOfStream);
    ClosesOfReport(report, endOfStream);
  }

  lemma NewlyWatched(s: Server, c: ConnId)
    requires Pollable(s, c) && s.conns[c].fd !in s.polls[s.conns[c].home].index
    ensures var t := EstablishNow(s, c);
            c in t.conns && Watched(t.polls, t.conns[c], READ_EVENTS) && !Silenced(t.polls, t.conns[c])
  {
    UpdateKeeps(s.polls[s.conns[c].home], s.conns[c].fd, READ_EVENTS);
  }

  lemma AcceptedExact(s: Server, fd: int, home: nat)
    requires Inv(s) && Enabled(s, Accept(fd, home))
    ensures Effect(s, Accept(fd, home), Accepted(s, fd, home))
  {
    hide PollsOk, ConnsOk, ClosedOk, ChannelsOk, ActiveOk, MapOk, TokensOk, PollSet.Inv, Silenced, Watched;
    CreateKeeps(s, fd, home);
    if home == 0 {
      var s1 := Create(s, fd, home);
      EstablishKeeps(s1, s.next);
      KeysHere(s1, 0);
      NewlyWatched(s1, s.next);
      var lived: seq<Event> := [];
      assert lived + [Up] == [Up];
      assert EstablishNow(s1, s.next).conns == s.conns[s.next := Conn(fd, home, Open, [Up])];
    }
  }

  lemma CalledExact(s: Server, l: nat)
    requires Inv(s) && Enabled(s, RunOne(l))
    ensures Effect(s, RunOne(l), Called(s, l))
  {
    hide PollsOk, ConnsOk, ClosedOk, ChannelsOk, ActiveOk, MapOk, TokensOk, PollSet.Inv, Silenced, Watched;
    PopKeeps(s, l);
    var s1 := Pop(s, l);
    match s.batch[l][0]
    case Establish(c) =>
      EstablishKeeps(s1, c);
      KeysHere(s1, s1.conns[c].home);
      NewlyWatched(s1, c);
    case Remove(c) => HomeExists(s1, c);
    case Destroy(c) => DestroyKeeps(s1, c);
  }

  lemma UserUpdateExact(s: Server, c: ConnId, events: int)
    requires Inv(s) && Enabled(s, UserUpdate(c, events))
    ensures Effect(s, UserUpdate(c, events), Next(s, UserUpdate(c, events)))
  {
    hide PollsOk, ConnsOk, ClosedOk, ChannelsOk, ActiveOk, MapOk, TokensOk;
    HomeExists(s, c);
    UpdateKeeps(s.polls[s.conns[c].home], s.conns[c].fd, events);
  }

  /** Every step has its effect, from any state that a run can reach. */
  lemma StepExact(s: Server, a: Action)
    requires Inv(s) && Enabled(s, a)
    ensures Effect(s, a, Next(s, a))
  {
    hide PollsOk, ConnsOk, ClosedOk, ChannelsOk, ActiveOk, MapOk, TokensOk, PollSet.Inv, Reports, Active, HasReport;
    match a
    case PollReturns(l, revents) => ReportsOpen(s, l, revents);
    case Accept(fd, home) => AcceptedExact(s, fd, home);
    case Handle(l, report, endOfStream) => HandledExact(s, l, report, endOfStream);
    case UserUpdate(c, events) => UserUpdateExact(s, c, events);
    case RunOne(l) => CalledExact(s, l);
    case _ =>
  }

  // ---------- whole runs ----------

  ghost predicate Possible(s: Server, actions: seq<Action>)
    requires Inv(s)
    decreases |actions|
  {
    actions != [] ==>
      Enabled(s, actions[0]) && (StepKeeps(s, actions[0]); Possible(Next(s, actions[0]), actions[1..]))
  }

  ghost function Run(s: Server, actions: seq<Action>): Server
    requires Inv(s) && Possible(s, actions)
    decreases |actions|
  {
    if actions == [] then s
    else
      StepKeeps(s, actions[0]);
      Run(Next(s, actions[0]), actions[1..])
  }

  lemma {:induction false} RunKeeps(s: Server, actions: seq<Action>)
    requires Inv(s) && Possible(s, actions)
    ensures Inv(Run(s, actions))
    decreases |actions|
  {
    hide Inv, Next, Enabled;
    if actions != [] {
      StepKeeps(s, actions[0]);
      RunKeeps(Next(s, actions[0]), actions[1..]);
    }
  }

  /** A server with n loops and no connections. */
  function Started(n: nat): Server {
    Server(seq(n, _ => Polling), seq(n, _ => EMPTY), seq(n, _ => map[]),
           seq(n, _ => []), seq(n, _ => []), seq(n, _ => []), map[], {}, 0)
  }

  lemma StartedHolds(n: nat)
    requires n > 0
    ensures Inv(Started(n))
  {
  }

  /** A sequence of steps of a server started with n loops. */
  ghost predicate PossibleFrom(n: nat, actions: seq<Action>) {
    n > 0 && (StartedHolds(n); Possible(Started(n), actions))
  }

  ghost function After(n: nat, actions: seq<Action>): Server
    requires PossibleFrom(n, actions)
  {
    StartedHolds(n);
    Run(Started(n), actions)
  }

  lemma AfterHolds(n: nat, actions: seq<Action>)
    requires PossibleFrom(n, actions)
    ensures Inv(After(n, actions))
  {
    hide Inv;
    StartedHolds(n);
    RunKeeps(Started(n), actions);
  }

  lemma {:induction false} RunStep(s: Server, actions: seq<Action>, k: nat)
    requires Inv(s) && Possible(s, actions) && k < |actions|
    ensures Possible(s, actions[..k]) && Inv(Run(s, actions[..k])) && Enabled(Run(s, actions[..k]), actions[k])
    ensures Possible(s, actions[..k + 1])
    ensures Run(s, actions[..k + 1]) == Next(Run(s, actions[..k]), actions[k])
    decreases k
  {
    hide Inv, Next, Enabled;
    StepKeeps(s, actions[0]);
    if k == 0 {
      assert actions[..0] == [] && actions[..1] == [actions[0]] && [actions[0]][1..] == [];
    } else {
      assert actions[..k][1..] == actions[1..][..k - 1] && actions[..k + 1][1..] == actions[1..][..k];
      RunStep(Next(s, actions[0]), actions[1..], k - 1);
    }
  }

  /** The k-th step of the run had its effect. */
  ghost predicate TookEffect(n: nat, actions: seq<Action>, k: nat)
    requires k < |actions|
  {
    && PossibleFrom(n, actions[..k]) && PossibleFrom(n, actions[..k + 1])
    && var s := After(n, actions[..k]);
    Shape(s) && Enabled(s, actions[k]) && Effect(s, actions[k], After(n, actions[..k + 1]))
  }

  lemma RunTakesEffect(n: nat, actions: seq<Action>, k: nat)
    requires PossibleFrom(n, actions) && k < |actions|
    ensures TookEffect(n, actions, k)
  {
    hide Inv, Next, Enabled, Effect, Possible, Run;
    StartedHolds(n);
    RunStep(Started(n), actions, k);
    HasShape(Run(Started(n), actions[..k]));
    StepExact(Run(Started(n), actions[..k]), actions[k]);
  }

  lemma HasShape(s: Server)
    requires Inv(s)
    ensures Shape(s)
  {
  }

  lemma ActiveIsRegistered(s: Server, l: nat, c: ConnId)
    requires Inv(s) && l < |s.active| && c in s.active[l]
    ensures c in s.conns && s.conns[c].home == l && s.conns[c].stage == Open
    ensures Registered(s.channels, s.conns[c], c) && l < |s.polls| && s.conns[c].fd in s.polls[l].index
  {
    hide PollsOk, ConnsOk, ClosedOk, ChannelsOk, MapOk, TokensOk, PollSet.Inv;
    assert Dispatchable(s.active[l], l, s.conns);
    IsPollable(s, c);
  }

  /** Dispatch safety: in every run, each channel still to be dispatched belongs to an open connection
      of that loop and is registered with the loop's poller. */
  lemma DispatchSafe(n: nat, actions: seq<Action>)
    requires PossibleFrom(n, actions)
    ensures var s := After(n, actions);
            forall l, c :: 0 <= l < |s.active| && c in s.active[l] ==>
              && c in s.conns && s.conns[c].home == l && s.conns[c].stage == Open
              && Registered(s.channels, s.conns[c], c)
              && l < |s.polls| && s.conns[c].fd in s.polls[l].index
  {
    hide Inv;
    AfterHolds(n, actions);
    var s := After(n, actions);
    forall l, c | 0 <= l < |s.active| && c in s.active[l]
      ensures c in s.conns && s.conns[c].home == l && s.conns[c].stage == Open
      ensures Registered(s.channels, s.conns[c], c) && l < |s.polls| && s.conns[c].fd in s.polls[l].index
    {
      ActiveIsRegistered(s, l, c);
    }
  }

  /** The life of every connection is a part, from its beginning, of up, closed, down; it is in the
      server's map exactly before its removal, so never once down.  And every step had its effect: an
      accepted connection comes up, a report that ends it closes it, and each functor run carries it on. */
  lemma LifeInOrder(n: nat, actions: seq<Action>)
    requires PossibleFrom(n, actions)
    ensures var s := After(n, actions);
            forall c :: c in s.conns ==>
              && s.conns[c].history <= [Up, Closed, Down]
              && (c in s.connections <==> s.conns[c].stage in {Connecting, Open, Closing})
              && (Down in s.conns[c].history ==> c !in s.connections)
    ensures forall k :: 0 <= k < |actions| ==> TookEffect(n, actions, k)
  {
    hide PollsOk, ClosedOk, ChannelsOk, ActiveOk, TokensOk, PollSet.Inv, After, TookEffect, PossibleFrom;
    AfterHolds(n, actions);
    forall k | 0 <= k < |actions| ensures TookEffect(n, actions, k) {
      RunTakesEffect(n, actions, k);
    }
  }

  /** Nothing is forgotten and nothing done twice: a connection not yet up has its establishment queued
      once on its loop, one being closed its removal once on loop 0, one removed its destruction once
      on its loop, and no loop holds any other functor for it. */
  lemma EveryFunctorOnce(n: nat, actions: seq<Action>, c: ConnId, l: nat)
    requires PossibleFrom(n, actions)
    requires l < |After(n, actions).pc| && c in After(n, actions).conns
    ensures var s := After(n, actions);
            && |s.batch| == |s.pending| == |s.pc|
            && var n := s.conns[c];
            && Tally(s.batch, s.pending, l, Establish(c)) == OneIf(n.stage == Connecting && n.home == l)
            && Tally(s.batch, s.pending, l, Remove(c)) == OneIf(n.stage == Closing && l == 0)
            && Tally(s.batch, s.pending, l, Destroy(c)) == OneIf(n.stage == Removed && n.home == l)
  {
    hide PollsOk, ConnsOk, ClosedOk, ChannelsOk, ActiveOk, MapOk, PollSet.Inv, After;
    AfterHolds(n, actions);
    var s := After(n, actions);
    assert TokensOk(s.batch, s.pending, s.conns, Nothing);
    assert Due(s.conns, l, Establish(c)) <==> s.conns[c].stage == Connecting && s.conns[c].home == l;
    assert Due(s.conns, l, Remove(c)) <==> s.conns[c].stage == Closing && l == 0;
    assert Due(s.conns, l, Destroy(c)) <==> s.conns[c].stage == Removed && s.conns[c].home == l;
  }
}

/** How a channel hands one report of poll to its callbacks (RN/net/Channel.cpp). */
module ChannelEvents {
  import opened Numbers

  datatype Revents = Revents(nval: bool, err: bool, hup: bool, in_: bool, pri: bool, rdhup: bool, out: bool)

  datatype Callback = OnError | OnClose | OnRead | OnWrite

  function HandleEvent(r: Revents): seq<Callback> {
    (if r.err || r.nval then [OnError] else []) +
    (if r.hup && !r.in_ then [OnClose] else []) +
    (if r.in_ || r.pri || r.rdhup then [OnRead] else []) +
    (if r.out then [OnWrite] else [])
  }

  /** What makes a channel run a callback. */
  predicate Triggers(r: Revents, c: Callback) {
    match c
    case OnError => r.err || r.nval
    case OnClose => r.hup && !r.in_
    case OnRead => r.in_ || r.pri || r.rdhup
    case OnWrite => r.out
  }

  /** The source's order: errors, close, read, write. */
  function Rank(c: Callback): nat {
    match c
    case OnError => 0
    case OnClose => 1
    case OnRead => 2
    case OnWrite => 3
  }

  /** Just the callbacks that the report triggers run, each once, in the source's order. */
  lemma HandleEventExact(r: Revents)
    ensures forall c :: c in HandleEvent(r) <==> Triggers(r, c)
    ensures forall i, j :: 0 <= i < j < |HandleEvent(r)| ==> Rank(HandleEvent(r)[i]) < Rank(HandleEvent(r)[j])
  {
    forall c ensures c in HandleEvent(r) <==> Triggers(r, c) {
      assert c == OnError || c == OnClose || c == OnRead || c == OnWrite;
    }
  }

  /** How often a connection's `handleClose` runs: from the close callback, and from the read callback
      when the read finds the end of the stream. */
  function Closes(calls: seq<Callback>, endOfStream: bool): nat {
    if calls == [] then 0
    else
      Closes(calls[..|calls| - 1], endOfStream) +
      OneIf(calls[|calls| - 1] == OnClose || (calls[|calls| - 1] == OnRead && endOfStream))
  }

  lemma {:induction false} ClosesConcat(a: seq<Callback>, b: seq<Callback>, endOfStream: bool)
    ensures Closes(a + b, endOfStream) == Closes(a, endOfStream) + Closes(b, endOfStream)
    decreases |b|
  {
    if b == [] {
      assert a + b == a;
    } else {
      ClosesConcat(a, b[..|b| - 1], endOfStream);
      assert (a + b)[..|a + b| - 1] == a + b[..|b| - 1];
    }
  }

  lemma ClosesSingle(c: Callback, endOfStream: bool)
    ensures Closes([], endOfStream) == 0
    ensures Closes([c], endOfStream) == OneIf(c == OnClose || (c == OnRead && endOfStream))
  {
    assert [c][..0] == [];
  }

  lemma ClosesOfReport(r: Revents, endOfStream: bool)
    ensures Closes(HandleEvent(r), endOfStream) ==
            OneIf(r.hup && !r.in_) + OneIf((r.in_ || r.pri || r.rdhup) && endOfStream)
  {
    hide Closes;
    var a := if r.err || r.nval then [OnError] else [];
    var b := if r.hup && !r.in_ then [OnClose] else [];
    var c := if r.in_ || r.pri || r.rdhup then [OnRead] else [];
    var d := if r.out then [OnWrite] else [];
    ClosesConcat(a + b + c, d, endOfStream);
    ClosesConcat(a + b, c, endOfStream);
    ClosesConcat(a, b, endOfStream);
    ClosesSingle(OnError, endOfStream);
    ClosesSingle(OnClose, endOfStream);
    ClosesSingle(OnRead, endOfStream);
    ClosesSingle(OnWrite, endOfStream);
  }

  /** The report does not tell a hang-up without input together with urgent data or the peer's
      shutdown. */
  predicate HangupAlone(r: Revents) {
    !(r.hup && !r.in_ && (r.pri || r.rdhup))
  }

  /** One report closes a connection at most once, whatever the read finds, exactly when it does not
      tell a hang-up without input together with urgent data or the peer's shutdown. */
  lemma ClosesOnceExact(r: Revents)
    ensures (forall endOfStream :: Closes(HandleEvent(r), endOfStream) <= 1)
       <==> HangupAlone(r)
  {
    ClosesOfReport(r, true);
    ClosesOfReport(r, false);
  }

  lemma OneCloseAtMost(r: Revents, endOfStream: bool)
    requires HangupAlone(r)
    ensures Closes(HandleEvent(r), endOfStream) <= 1
  {
    ClosesOfReport(r, endOfStream);
  }
}

/** The keys of the server's map of connections (`getConnectionName`, RN/net/TcpServer.h). */
module ConnectionNames {
  import opened Numerals

  const NAME_SIZE: nat := 32

  /** `snprintf` into 32 bytes keeps 31 characters. */
  function Name(server: string, id: nat): string {
    var full := server + "#" + Numeral(id, 10);
    if |full| < NAME_SIZE then full else full[..NAME_SIZE - 1]
  }

  ghost predicate NamesDiffer(server: string, k: nat) {
    forall i, j :: 1 <= i < j <= k ==> Name(server, i) != Name(server, j)
  }

  lemma LongerNumeral(a: nat, b: nat)
    requires a <= b
    ensures |Numeral(a, 10)| <= |Numeral(b, 10)|
  {
    var k := |Numeral(b, 10)|;
    NumeralReads(b, 10);
    NumeralLength(b, 10, k);
    NumeralLength(a, 10, k);
  }

  /** The leading digits of a number are the numeral of a smaller one. */
  lemma LeadingDigits(k: nat, m: nat) returns (p: nat)
    requires k >= 1 && 1 <= m < |Numeral(k, 10)|
    ensures 1 <= p < k && Numeral(p, 10) == Numeral(k, 10)[..m]
  {
    NumeralReads(k, 10);
    var s := Numeral(k, 10)[..m];
    NumeralOfRead(s, 10);
    p := ReadNat(s, 10);
    if k <= p {
      LongerNumeral(k, p);
    }
  }

  lemma WholeNames(server: string, i: nat, j: nat)
    requires |server| + 1 + |Numeral(i, 10)| < NAME_SIZE && |server| + 1 + |Numeral(j, 10)| < NAME_SIZE
    requires Name(server, i) == Name(server, j)
    ensures i == j
  {
    NumeralReads(i, 10);
    NumeralReads(j, 10);
    assert Name(server, i)[|server| + 1..] == Numeral(i, 10);
    assert Name(server, j)[|server| + 1..] == Numeral(j, 10);
  }

  /** The first k connections of a server get different names exactly when the name of the k-th fits. */
  lemma NamesDifferExact(server: string, k: nat)
    requires k >= 2
    ensures NamesDiffer(server, k) <==> |server| + 1 + |Numeral(k, 10)| < NAME_SIZE
  {
    if |server| + 1 + |Numeral(k, 10)| < NAME_SIZE {
      forall i, j | 1 <= i < j <= k ensures Name(server, i) != Name(server, j) {
        LongerNumeral(i, k);
        LongerNumeral(j, k);
        if Name(server, i) == Name(server, j) {
          WholeNames(server, i, j);
        }
      }
    } else if |server| + 1 >= NAME_SIZE - 1 {
      NumeralReads(1, 10);
      NumeralReads(2, 10);
      assert Name(server, 1) == (server + "#")[..NAME_SIZE - 1] == Name(server, 2);
    } else {
      var m := NAME_SIZE - 1 - (|server| + 1);
      var p := LeadingDigits(k, m);
      assert Name(server, k) == server + "#" + Numeral(k, 10)[..m];
      assert Name(server, p) == Name(server, k);
    }
  }
}
