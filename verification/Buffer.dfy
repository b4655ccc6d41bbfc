/** The growable byte queue between a socket and its connection (RN/net/Buffer.h).

`Storage` describes what each operation does to the storage and the two indices; `Buffers`
is the class that does it in place on an array.  The theorems are about `Storage`.
*/
module Bytes {
  type Byte = b: nat | b < 256
}

module Storage {
  import opened Bytes

  const CHEAP_PREPEND: nat := 8
  const INITIAL_SIZE: nat := 1024
  const EXTRA_SIZE: nat := 65536

  /** Where `append` copies its bytes: the line as written says `beginOfReader()`; the caller's
      next step, `hasWritten`, only makes sense after a copy to `beginOfWriter()`. */
  datatype CopyTo = Reader | Writer

  datatype RawStore = RawStore(data: seq<Byte>, reader: nat, writer: nat)
  type Store = s: RawStore | s.reader <= s.writer <= |s.data| witness RawStore([], 0, 0)

  function Readable(s: Store): seq<Byte> {
    s.data[s.reader..s.writer]
  }

  function Writable(s: Store): nat {
    |s.data| - s.writer
  }

  function Zeros(n: nat): seq<Byte> {
    seq(n, _ => 0)
  }

  function Fresh(): Store {
    RawStore(Zeros(CHEAP_PREPEND + INITIAL_SIZE), CHEAP_PREPEND, CHEAP_PREPEND)
  }

  /** `data` with `bytes` written over it from position `at`. */
  function Blit(data: seq<Byte>, at: nat, bytes: seq<Byte>): (r: seq<Byte>)
    requires at + |bytes| <= |data|
    ensures |r| == |data|
  {
    data[..at] + bytes + data[at + |bytes|..]
  }

  lemma BlitSlice(data: seq<Byte>, at: nat, bytes: seq<Byte>, hi: nat)
    requires at + |bytes| <= hi <= |data|
    ensures Blit(data, at, bytes)[at..hi] == bytes + data[at + |bytes|..hi]
  {
  }

  /** One byte of a front-to-back copy to a lower place: the part already copied grows by one, and
      the part still to be copied is untouched. */
  lemma CopyStep(was: seq<Byte>, now: seq<Byte>, from: nat, at: nat, k: nat)
    requires at <= from && from + k < |was| == |now|
    requires now == was[..at] + was[from..from + k] + was[at + k..]
    ensures now[from + k] == was[from + k]
    ensures now[at + k := was[from + k]] == was[..at] + was[from..from + k + 1] + was[at + k + 1..]
  {
    assert now[from + k] == was[at + k..][from - at];
  }

  function Grown(s: Store, len: nat): Store {
    if s.writer + len <= |s.data| then s
    else s.(data := s.data + Zeros(s.writer + len - |s.data|))
  }

  function Compacted(s: Store): Store
    requires CHEAP_PREPEND <= s.reader
  {
    RawStore(Blit(s.data, CHEAP_PREPEND, Readable(s)), CHEAP_PREPEND, CHEAP_PREPEND + |Readable(s)|)
  }

  function EnsureSpace(s: Store, len: nat): Store {
    if Writable(s) >= len then s
    else if Writable(s) + s.reader < len + CHEAP_PREPEND then Grown(s, len)
    else Compacted(s)
  }

  /** The room is there, the readable bytes are kept, and storage never shrinks; it grows, by the least
      that will do, exactly when moving the readable bytes to the front would not make the room. */
  lemma EnsureSpaceKeeps(s: Store, len: nat)
    ensures var t := EnsureSpace(s, len);
            && Writable(t) >= len
            && Readable(t) == Readable(s)
            && |t.data| >= |s.data|
            && (Writable(s) < len && |t.data| == |s.data| ==> CHEAP_PREPEND < s.reader && t.reader == CHEAP_PREPEND)
            && (|t.data| > |s.data| ==> t.reader == s.reader && |t.data| == s.writer + len)
            && (|t.data| > |s.data| <==> Writable(s) < len && CHEAP_PREPEND + |Readable(s)| + len > |s.data|)
  {
  }

  function Appended(to: CopyTo, s: Store, bytes: seq<Byte>): Store {
    EnsureSpaceKeeps(s, |bytes|);
    var t := EnsureSpace(s, |bytes|);
    t.(data := Blit(t.data, if to.Writer? then t.writer else t.reader, bytes), writer := t.writer + |bytes|)
  }

  function Retrieved(s: Store, len: nat): Store
    requires len <= |Readable(s)|
  {
    s.(reader := s.reader + len)
  }

  function Emptied(s: Store): Store
    requires CHEAP_PREPEND <= |s.data|
  {
    s.(reader := CHEAP_PREPEND, writer := CHEAP_PREPEND)
  }

  function Prepended(s: Store, bytes: seq<Byte>): Store
    requires |bytes| <= s.reader
  {
    s.(data := Blit(s.data, s.reader - |bytes|, bytes), reader := s.reader - |bytes|)
  }

  /** `readv` filled the writable part with a prefix of `got` and a stack buffer with the rest. */
  function Received(to: CopyTo, s: Store, got: seq<Byte>): Store {
    if |got| <= Writable(s) then
      s.(data := Blit(s.data, s.writer, got), writer := s.writer + |got|)
    else
      var full := s.(data := Blit(s.data, s.writer, got[..Writable(s)]), writer := |s.data|);
      Appended(to, full, got[Writable(s)..])
  }

  // ---------- one operation ----------

  lemma AppendedReadable(s: Store, bytes: seq<Byte>)
    ensures Readable(Appended(Writer, s, bytes)) == Readable(s) + bytes
    ensures |Appended(Writer, s, bytes).data| >= |s.data|
  {
    EnsureSpaceKeeps(s, |bytes|);
  }

  lemma PrependedReadable(s: Store, bytes: seq<Byte>)
    requires |bytes| <= s.reader
    ensures Readable(Prepended(s, bytes)) == bytes + Readable(s)
  {
    var t := Prepended(s, bytes);
    assert t.data[t.reader..s.reader] == bytes;
    assert t.data[s.reader..t.writer] == s.data[s.reader..s.writer];
  }

  lemma ReceivedReadable(s: Store, got: seq<Byte>)
    ensures Readable(Received(Writer, s, got)) == Readable(s) + got
    ensures |Received(Writer, s, got).data| >= |s.data|
  {
    if |got| > Writable(s) {
      var full := s.(data := Blit(s.data, s.writer, got[..Writable(s)]), writer := |s.data|);
      assert Readable(full) == Readable(s) + got[..Writable(s)];
      AppendedReadable(full, got[Writable(s)..]);
    }
  }

  // ---------- append as written ----------

  /** As written, `append` puts its bytes over the oldest unread ones and exposes stale storage. */
  lemma AsWrittenShape(s: Store, bytes: seq<Byte>)
    ensures var t := EnsureSpace(s, |bytes|);
            && t.writer + |bytes| <= |t.data|
            && Readable(Appended(Reader, s, bytes)) == bytes + t.data[t.reader + |bytes|..t.writer + |bytes|]
  {
    EnsureSpaceKeeps(s, |bytes|);
    var t := EnsureSpace(s, |bytes|);
    BlitSlice(t.data, t.reader, bytes, t.writer + |bytes|);
  }

  /** As written, an append of n bytes is right for every n bytes exactly when there is nothing
      unread or nothing to append. */
  lemma AppendAsWrittenExact(s: Store, n: nat)
    ensures (forall bytes: seq<Byte> | |bytes| == n :: Readable(Appended(Reader, s, bytes)) == Readable(s) + bytes)
       <==> (Readable(s) == [] || n == 0)
  {
    EnsureSpaceKeeps(s, n);
    if Readable(s) == [] || n == 0 {
      forall bytes: seq<Byte> | |bytes| == n
        ensures Readable(Appended(Reader, s, bytes)) == Readable(s) + bytes
      {
        AsWrittenShape(s, bytes);
      }
    } else {
      var bytes := seq(n, _ => Other(Readable(s)[0]));
      AsWrittenShape(s, bytes);
      assert Readable(Appended(Reader, s, bytes))[0] == bytes[0];
      assert (Readable(s) + bytes)[0] == Readable(s)[0];
    }
  }

  function Other(b: Byte): Byte {
    if b == 0 then 1 else 0
  }

  /** As written, the overflow of a scatter read lands on the oldest unread byte. */
  lemma ReadOverflowAsWritten(s: Store, got: seq<Byte>)
    requires |got| > Writable(s)
    ensures var r := Readable(Received(Reader, s, got));
            && |r| == |Readable(s)| + |got|
            && r[0] == got[Writable(s)]
            && (Writable(s) == 0 && Readable(s) == [] ==> r == got)
  {
    var k := Writable(s);
    var full := s.(data := Blit(s.data, s.writer, got[..k]), writer := |s.data|);
    assert Readable(full) == Readable(s) + got[..k];
    EnsureSpaceKeeps(full, |got| - k);
    AsWrittenShape(full, got[k..]);
  }

  /** As written, a scatter read of n bytes is right for every n bytes exactly when they all fit
      in the writable part, or the buffer was empty and had no writable part. */
  lemma ReadAsWrittenExact(s: Store, n: nat)
    ensures (forall got: seq<Byte> | |got| == n :: Readable(Received(Reader, s, got)) == Readable(s) + got)
       <==> (n <= Writable(s) || (Readable(s) == [] && Writable(s) == 0))
  {
    if n <= Writable(s) || (Readable(s) == [] && Writable(s) == 0) {
      forall got: seq<Byte> | |got| == n
        ensures Readable(Received(Reader, s, got)) == Readable(s) + got
      {
        ReadWhereSafe(s, got);
      }
    } else {
      var got := ReadWitness(s, n);
    }
  }

  lemma ReadWhereSafe(s: Store, got: seq<Byte>)
    requires |got| <= Writable(s) || (Readable(s) == [] && Writable(s) == 0)
    ensures Readable(Received(Reader, s, got)) == Readable(s) + got
  {
    if |got| > Writable(s) {
      ReadOverflowAsWritten(s, got);
      assert Readable(s) + got == got;
    }
  }

  lemma ReadWitness(s: Store, n: nat) returns (got: seq<Byte>)
    requires n > Writable(s) && (Readable(s) != [] || Writable(s) > 0)
    ensures |got| == n && Readable(Received(Reader, s, got)) != Readable(s) + got
  {
    var k := Writable(s);
    var first: Byte := if Readable(s) != [] then Readable(s)[0] else 0;
    var head: seq<Byte> := seq(k, _ => first);
    var tail: seq<Byte> := seq(n - k, _ => Other(first));
    got := head + tail;
    ReadOverflowAsWritten(s, got);
    assert (Readable(s) + got)[0] == first;
  }

  // ---------- every sequence of operations ----------

  datatype Op =
    | Append(bytes: seq<Byte>)
    | Retrieve(len: nat)
    | RetrieveAll
    | Prepend(bytes: seq<Byte>)
    | Read(bytes: seq<Byte>)

  /** What the source asserts, and what `readv` can return at most. */
  predicate Allowed(s: Store, op: Op) {
    match op
    case Retrieve(len) => len <= |Readable(s)|
    case Prepend(bytes) => |bytes| <= s.reader
    case Read(bytes) => |bytes| <= Writable(s) + EXTRA_SIZE
    case _ => true
  }

  function Apply(to: CopyTo, s: Store, op: Op): Store
    requires Allowed(s, op) && CHEAP_PREPEND <= |s.data|
  {
    match op
    case Append(bytes) => Appended(to, s, bytes)
    case Retrieve(len) => Retrieved(s, len)
    case RetrieveAll => Emptied(s)
    case Prepend(bytes) => Prepended(s, bytes)
    case Read(bytes) => Received(to, s, bytes)
  }

  /** The same operation on a plain byte queue. */
  function ApplyQueue(q: seq<Byte>, op: Op): seq<Byte> {
    match op
    case Append(bytes) => q + bytes
    case Retrieve(len) => if len <= |q| then q[len..] else q
    case RetrieveAll => []
    case Prepend(bytes) => bytes + q
    case Read(bytes) => q + bytes
  }

  ghost predicate AllowedRun(to: CopyTo, s: Store, ops: seq<Op>)
    decreases |ops|
  {
    CHEAP_PREPEND <= |s.data| &&
    (ops == [] || (Allowed(s, ops[0]) && AllowedRun(to, Apply(to, s, ops[0]), ops[1..])))
  }

  ghost function Run(to: CopyTo, s: Store, ops: seq<Op>): Store
    requires AllowedRun(to, s, ops)
    decreases |ops|
  {
    if ops == [] then s else Run(to, Apply(to, s, ops[0]), ops[1..])
  }

  ghost function RunQueue(q: seq<Byte>, ops: seq<Op>): seq<Byte>
    decreases |ops|
  {
    if ops == [] then q else RunQueue(ApplyQueue(q, ops[0]), ops[1..])
  }

  /** An operation during which the copy destination cannot matter. */
  predicate LandsOnEmpty(s: Store, op: Op) {
    match op
    case Append(bytes) => Readable(s) == [] || bytes == []
    case Read(bytes) => |bytes| <= Writable(s) || (Readable(s) == [] && Writable(s) == 0)
    case _ => true
  }

  ghost predicate AllLandOnEmpty(s: Store, ops: seq<Op>)
    requires AllowedRun(Reader, s, ops)
    decreases |ops|
  {
    ops == [] || (LandsOnEmpty(s, ops[0]) && AllLandOnEmpty(Apply(Reader, s, ops[0]), ops[1..]))
  }

  lemma ApplyRefines(to: CopyTo, s: Store, op: Op)
    requires Allowed(s, op) && CHEAP_PREPEND <= |s.data|
    requires to == Writer || LandsOnEmpty(s, op)
    ensures Readable(Apply(to, s, op)) == ApplyQueue(Readable(s), op)
    ensures |Apply(to, s, op).data| >= |s.data|
  {
    match op
    case Append(bytes) =>
      AppendedReadable(s, bytes);
      AppendAsWrittenExact(s, |bytes|);
      EnsureSpaceKeeps(s, |bytes|);
    case Prepend(bytes) => PrependedReadable(s, bytes);
    case Read(bytes) =>
      ReceivedReadable(s, bytes);
      ReadAsWrittenExact(s, |bytes|);
      if |bytes| > Writable(s) {
        var full := s.(data := Blit(s.data, s.writer, bytes[..Writable(s)]), writer := |s.data|);
        EnsureSpaceKeeps(full, |bytes| - Writable(s));
      }
    case _ =>
  }

  /** Any run of operations refines the byte queue, with the copy going to the writer. */
  lemma {:induction false} RunRefines(s: Store, ops: seq<Op>)
    requires AllowedRun(Writer, s, ops)
    ensures Readable(Run(Writer, s, ops)) == RunQueue(Readable(s), ops)
    ensures |Run(Writer, s, ops).data| >= |s.data|
    decreases |ops|
  {
    if ops != [] {
      ApplyRefines(Writer, s, ops[0]);
      RunRefines(Apply(Writer, s, ops[0]), ops[1..]);
    }
  }

  lemma {:induction false} AsWrittenKeeps(s: Store, ops: seq<Op>)
    requires AllowedRun(Reader, s, ops) && AllLandOnEmpty(s, ops)
    ensures Readable(Run(Reader, s, ops)) == RunQueue(Readable(s), ops)
    decreases |ops|
  {
    if ops != [] {
      ApplyRefines(Reader, s, ops[0]);
      AsWrittenKeeps(Apply(Reader, s, ops[0]), ops[1..]);
    }
  }

  /** As written, a run refines the byte queue as long as no bytes are appended over unread ones. */
  lemma RunAsWrittenRefines(ops: seq<Op>)
    requires AllowedRun(Reader, Fresh(), ops) && AllLandOnEmpty(Fresh(), ops)
    ensures Readable(Run(Reader, Fresh(), ops)) == RunQueue([], ops)
  {
    AsWrittenKeeps(Fresh(), ops);
    assert Readable(Fresh()) == [];
  }

  /** Two appends in a row, as written: the second overwrites the first. */
  lemma AsWrittenLosesBytes()
    ensures var once := Appended(Reader, Fresh(), [1]);
            && Readable(once) == [1]
            && Readable(Appended(Reader, once, [2])) == [2, 0]
  {
  }
}

module Buffers {
  import opened Bytes
  import opened Storage

  class Buffer {
    const copyTo: CopyTo
    var data: array<Byte>
    var reader: nat
    var writer: nat

    ghost predicate Valid()
      reads this
    {
      reader <= writer <= data.Length && CHEAP_PREPEND <= data.Length
    }

    ghost function State(): Store
      requires Valid()
      reads this, data
    {
      RawStore(data[..], reader, writer)
    }

    constructor (to: CopyTo)
      ensures Valid() && fresh(data) && copyTo == to
      ensures State() == Fresh()
    {
      copyTo := to;
      data := new Byte[CHEAP_PREPEND + INITIAL_SIZE](_ => 0);
      reader, writer := CHEAP_PREPEND, CHEAP_PREPEND;
    }

    method ReadableBytes() returns (n: nat)
      requires Valid()
      ensures n == |Readable(State())|
    {
      n := writer - reader;
    }

    method Retrieve(len: nat)
      requires Valid() && len <= |Readable(State())|
      modifies `reader
      ensures Valid() && State() == Retrieved(old(State()), len)
      ensures Readable(State()) == old(Readable(State()))[len..]
    {
      reader := reader + len;
    }

    method RetrieveAll()
      requires Valid()
      modifies `reader, `writer
      ensures Valid() && State() == Emptied(old(State()))
      ensures Readable(State()) == [] && data[..] == old(data[..]) && reader == CHEAP_PREPEND
    {
      reader, writer := CHEAP_PREPEND, CHEAP_PREPEND;
    }

    method RetrieveAllAsString() returns (s: seq<Byte>)
      requires Valid()
      modifies `reader, `writer
      ensures s == Readable(old(State()))
      ensures Valid() && State() == Emptied(old(State()))
      ensures Readable(State()) == []
    {
      s := data[reader..writer];
      RetrieveAll();
    }

    /** `std::copy` within the storage, front to back, to a lower position. */
    method CopyDown(from: nat, to: nat, at: nat)
      requires at <= from <= to <= data.Length
      modifies data
      ensures data[..] == Blit(old(data[..]), at, old(data[from..to]))
    {
      ghost var was := data[..];
      var k := 0;
      while k < to - from
        invariant 0 <= k <= to - from
        invariant data[..] == was[..at] + was[from..from + k] + was[at + k..]
      {
        ghost var now := data[..];
        CopyStep(was, now, from, at, k);
        data[at + k] := data[from + k];
        assert data[..] == now[at + k := was[from + k]];
        k := k + 1;
      }
      assert was[from..from + k] == old(data[from..to]);
    }

    /** `std::copy` from outside into the storage. */
    method CopyIn(bytes: seq<Byte>, at: nat)
      requires at + |bytes| <= data.Length
      modifies data
      ensures data[..] == Blit(old(data[..]), at, bytes)
    {
      ghost var was := data[..];
      var k := 0;
      while k < |bytes|
        invariant 0 <= k <= |bytes|
        invariant data[..] == was[..at] + bytes[..k] + was[at + k..]
      {
        data[at + k] := bytes[k];
        k := k + 1;
      }
    }

    method Resize(size: nat)
      requires Valid() && size >= data.Length
      modifies `data
      ensures Valid() && fresh(data)
      ensures data[..] == old(data[..]) + Zeros(size - old(data.Length))
    {
      var old' := data;
      var bigger := new Byte[size](i requires 0 <= i < size reads old' => if i < old'.Length then old'[i] else 0);
      data := bigger;
    }

    method MakeSpace(len: nat)
      requires Valid() && Writable(State()) < len
      modifies this, data
      ensures Valid() && (data == old(data) || fresh(data))
      ensures State() == EnsureSpace(old(State()), len)
    {
      if data.Length - writer + reader < len + CHEAP_PREPEND {
        Resize(writer + len);
      } else {
        assert CHEAP_PREPEND < reader;
        CopyDown(reader, writer, CHEAP_PREPEND);
        writer := CHEAP_PREPEND + (writer - reader);
        reader := CHEAP_PREPEND;
      }
    }

    method EnsureEnoughSpace(len: nat)
      requires Valid()
      modifies this, data
      ensures Valid() && (data == old(data) || fresh(data))
      ensures State() == EnsureSpace(old(State()), len)
    {
      if data.Length - writer < len {
        MakeSpace(len);
      }
    }

    method Append(bytes: seq<Byte>)
      requires Valid()
      modifies this, data
      ensures Valid() && (data == old(data) || fresh(data))
      ensures State() == Appended(copyTo, old(State()), bytes)
    {
      EnsureSpaceKeeps(State(), |bytes|);
      EnsureEnoughSpace(|bytes|);
      assert data.Length - writer >= |bytes|;
      CopyIn(bytes, if copyTo.Writer? then writer else reader);
      writer := writer + |bytes|;
    }

    method Prepend(bytes: seq<Byte>)
      requires Valid() && |bytes| <= reader
      modifies this, data
      ensures Valid() && data == old(data)
      ensures State() == Prepended(old(State()), bytes)
    {
      reader := reader - |bytes|;
      CopyIn(bytes, reader);
    }

    /** `got` is what `readv` delivered, first into the writable part, then into `buf`. */
    method ReadFd(got: seq<Byte>) returns (n: nat)
      requires Valid() && |got| <= Writable(State()) + EXTRA_SIZE
      modifies this, data
      ensures Valid() && (data == old(data) || fresh(data))
      ensures n == |got| && State() == Received(copyTo, old(State()), got)
    {
      var writable := data.Length - writer;
      n := |got|;
      if n <= writable {
        CopyIn(got, writer);
        writer := writer + n;
      } else {
        CopyIn(got[..writable], writer);
        writer := data.Length;
        Append(got[writable..]);
      }
    }
  }
}
