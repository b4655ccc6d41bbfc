/** The asynchronous logger (RN/base/AsyncLogging.cpp): many threads append lines, one thread writes.

The writer holds the mutex for its whole turn except while it waits, which it does at the head of
every turn, so a run is an interleaving of whole appends and whole turns.  `LogRounds` describes both
on texts and proves what becomes of every line; `AsyncLoggers` is the class that passes four owned
buffers around.
*/
module LogRounds {
  const MAX_BATCH: nat := 25

  /** What `LogFile::append` received. */
  datatype Chunk = Data(text: string) | Notice(dropped: nat)

  datatype Log = Log(
    size: nat,                     // of each buffer
    current: string,
    spare: bool,                   // nextBuffer_ is there
    full: seq<string>,             // buffers_
    file: seq<Chunk>,
    batches: seq<seq<string>>)     // what the writer has swapped out, turn by turn

  /** `FixedBuffer::append` takes a line only if room remains after it. */
  function Filled(size: nat, text: string, line: string): string {
    if size - |text| > |line| then text + line else text
  }

  function Append(l: Log, line: string): Log {
    if l.size - |l.current| > |line| then l.(current := l.current + line)
    else l.(full := l.full + [l.current], current := Filled(l.size, "", line), spare := false)
  }

  function Chunks(texts: seq<string>): seq<Chunk> {
    if texts == [] then [] else Chunks(texts[..|texts| - 1]) + [Data(texts[|texts| - 1])]
  }

  /** Of a batch of more than 25 buffers only the first two are written, after a notice. */
  function Kept(batch: seq<string>): seq<string> {
    if |batch| > MAX_BATCH then batch[..2] else batch
  }

  function Written(batch: seq<string>): seq<Chunk> {
    (if |batch| > MAX_BATCH then [Notice(|batch| - 2)] else []) + Chunks(Kept(batch))
  }

  /** One turn of the writer. */
  function Turn(l: Log): Log {
    var batch := l.full + [l.current];
    l.(current := "", spare := true, full := [], file := l.file + Written(batch), batches := l.batches + [batch])
  }

  // ---------- what becomes of every line ----------

  datatype Action = Line(text: string) | WriterTurn

  function Next(l: Log, a: Action): Log {
    match a
    case Line(text) => Append(l, text)
    case WriterTurn => Turn(l)
  }

  function Run(l: Log, actions: seq<Action>): Log
    decreases |actions|
  {
    if actions == [] then l else Run(Next(l, actions[0]), actions[1..])
  }

  function Started(size: nat): Log {
    Log(size, "", true, [], [], [])
  }

  function Concat(texts: seq<string>): string {
    if texts == [] then "" else Concat(texts[..|texts| - 1]) + texts[|texts| - 1]
  }

  function ConcatAll(batches: seq<seq<string>>): string {
    if batches == [] then "" else ConcatAll(batches[..|batches| - 1]) + Concat(batches[|batches| - 1])
  }

  /** What the file holds, notices aside. */
  function FileText(file: seq<Chunk>): string {
    if file == [] then ""
    else FileText(file[..|file| - 1]) + (if file[|file| - 1].Data? then file[|file| - 1].text else "")
  }

  function KeptText(batches: seq<seq<string>>): string {
    if batches == [] then "" else KeptText(batches[..|batches| - 1]) + Concat(Kept(batches[|batches| - 1]))
  }

  function LineOf(size: nat, a: Action): string {
    if a.Line? && |a.text| < size then a.text else ""
  }

  /** How many buffers the notices in the file admit to have dropped, and how many were. */
  function Admitted(file: seq<Chunk>): nat {
    if file == [] then 0
    else Admitted(file[..|file| - 1]) + (if file[|file| - 1].Notice? then file[|file| - 1].dropped else 0)
  }

  function DroppedBuffers(batches: seq<seq<string>>): nat {
    if batches == [] then 0
    else DroppedBuffers(batches[..|batches| - 1]) + |batches[|batches| - 1]| - |Kept(batches[|batches| - 1])|
  }

  /** All the lines that fit a buffer, in the order they were appended. */
  function Lines(size: nat, actions: seq<Action>): string
    decreases |actions|
  {
    if actions == [] then "" else LineOf(size, actions[0]) + Lines(size, actions[1..])
  }

  /** Everything that was swapped out, is full, or is being filled. */
  function Everything(l: Log): string {
    ConcatAll(l.batches) + Concat(l.full) + l.current
  }

  lemma ConcatSnoc(texts: seq<string>, text: string)
    ensures Concat(texts + [text]) == Concat(texts) + text
  {
    assert (texts + [text])[..|texts|] == texts;
  }

  lemma BatchesSnoc(batches: seq<seq<string>>, batch: seq<string>)
    ensures ConcatAll(batches + [batch]) == ConcatAll(batches) + Concat(batch)
    ensures KeptText(batches + [batch]) == KeptText(batches) + Concat(Kept(batch))
    ensures DroppedBuffers(batches + [batch]) == DroppedBuffers(batches) + |batch| - |Kept(batch)|
  {
    assert (batches + [batch])[..|batches|] == batches;
  }

  lemma FileSnoc(file: seq<Chunk>, c: Chunk)
    ensures FileText(file + [c]) == FileText(file) + (if c.Data? then c.text else "")
    ensures Admitted(file + [c]) == Admitted(file) + (if c.Notice? then c.dropped else 0)
  {
    assert (file + [c])[..|file|] == file;
  }

  lemma {:induction false} ChunksText(file: seq<Chunk>, texts: seq<string>)
    ensures FileText(file + Chunks(texts)) == FileText(file) + Concat(texts)
    ensures Admitted(file + Chunks(texts)) == Admitted(file)
    decreases |texts|
  {
    hide FileText, Admitted;
    if texts == [] {
      assert file + [] == file;
    } else {
      var init, last := texts[..|texts| - 1], texts[|texts| - 1];
      ChunksText(file, init);
      var f := file + Chunks(init);
      assert file + Chunks(texts) == f + [Data(last)];
      FileSnoc(f, Data(last));
      assert FileText(file) + Concat(init) + last == FileText(file) + (Concat(init) + last);
    }
  }

  lemma WrittenText(file: seq<Chunk>, batch: seq<string>)
    ensures FileText(file + Written(batch)) == FileText(file) + Concat(Kept(batch))
    ensures Admitted(file + Written(batch)) == Admitted(file) + |batch| - |Kept(batch)|
  {
    hide FileText, Admitted;
    var f := file + (if |batch| > MAX_BATCH then [Notice(|batch| - 2)] else []);
    assert file + Written(batch) == f + Chunks(Kept(batch));
    ChunksText(f, Kept(batch));
    if |batch| > MAX_BATCH {
      FileSnoc(file, Notice(|batch| - 2));
    } else {
      assert f == file;
    }
  }

  ghost predicate Inv(l: Log) {
    && |l.current| < l.size
    && (!l.spare ==> l.full != [])
    && FileText(l.file) == KeptText(l.batches)
    && Admitted(l.file) == DroppedBuffers(l.batches)
  }

  /** An append adds exactly its line, provided the line is shorter than a buffer; a longer one is
      dropped, after the current buffer was retired for it.  The current buffer is retired, and a spare
      one used up, exactly when no room would be left in it after the line. */
  lemma AppendExact(l: Log, line: string)
    requires Inv(l)
    ensures Inv(Append(l, line))
    ensures Everything(Append(l, line)) == Everything(l) + (if |line| < l.size then line else "")
    ensures Everything(Append(l, line)) == Everything(l) + line <==> |line| < l.size
    ensures var r := Append(l, line);
            && r.batches == l.batches && r.file == l.file && r.size == l.size
            && (if |l.current| + |line| < l.size
                then r.full == l.full && r.spare == l.spare
                else r.full == l.full + [l.current] && !r.spare)
  {
    hide FileText, KeptText, Admitted, DroppedBuffers, Concat, ConcatAll;
    ConcatSnoc(l.full, l.current);
    var e := ConcatAll(l.batches) + Concat(l.full);
    assert e + (l.current + line) == e + l.current + line;
    assert ConcatAll(l.batches) + (Concat(l.full) + l.current) == e + l.current;
    assert |Everything(l) + line| == |Everything(l)| + |line|;
  }

  lemma TurnKeeps(l: Log)
    requires Inv(l)
    ensures Inv(Turn(l)) && Everything(Turn(l)) == Everything(l)
  {
    var batch := l.full + [l.current];
    ConcatSnoc(l.full, l.current);
    BatchesSnoc(l.batches, batch);
    WrittenText(l.file, batch);
    assert ConcatAll(l.batches) + (Concat(l.full) + l.current) == ConcatAll(l.batches) + Concat(l.full) + l.current;
    assert ConcatAll(l.batches + [batch]) + "" + "" == ConcatAll(l.batches + [batch]);
  }

  lemma {:induction false} RunKeeps(l: Log, actions: seq<Action>)
    requires Inv(l)
    ensures Inv(Run(l, actions)) && Everything(Run(l, actions)) == Everything(l) + Lines(l.size, actions)
    decreases |actions|
  {
    hide Inv, Next, Everything;
    if actions == [] {
      assert Everything(l) + "" == Everything(l);
    } else {
      StepKeeps(l, actions[0]);
      RunKeeps(Next(l, actions[0]), actions[1..]);
      var e, first, rest := Everything(l), LineOf(l.size, actions[0]), Lines(l.size, actions[1..]);
      assert (e + first) + rest == e + (first + rest);
    }
  }

  lemma StepKeeps(l: Log, a: Action)
    requires Inv(l)
    ensures Inv(Next(l, a)) && Next(l, a).size == l.size && Everything(Next(l, a)) == Everything(l) + LineOf(l.size, a)
  {
    if a.Line? {
      AppendExact(l, a.text);
    } else {
      TurnKeeps(l);
      assert Everything(l) + "" == Everything(l);
    }
  }

  /** The actions up to the last turn of the writer. */
  function UpToTurn(actions: seq<Action>): seq<Action> {
    if actions == [] || actions[|actions| - 1] == WriterTurn then actions else UpToTurn(actions[..|actions| - 1])
  }

  lemma {:induction false} RunSnoc(l: Log, actions: seq<Action>)
    requires actions != []
    ensures Run(l, actions) == Next(Run(l, actions[..|actions| - 1]), actions[|actions| - 1])
    decreases |actions|
  {
    if |actions| > 1 {
      assert actions[..|actions| - 1][1..] == actions[1..][..|actions| - 2];
      RunSnoc(Next(l, actions[0]), actions[1..]);
    } else {
      assert actions[1..] == [];
    }
  }

  /** The writer has swapped out all that had been appended before its last turn. */
  lemma {:induction false} TurnTakesAll(size: nat, actions: seq<Action>)
    requires size > 0
    ensures ConcatAll(Run(Started(size), actions).batches) == Lines(size, UpToTurn(actions))
    decreases |actions|
  {
    hide Run, ConcatAll, Everything, Lines, Inv, Turn;
    NothingAtStart(size);
    if actions != [] {
      RunSnoc(Started(size), actions);
      if actions[|actions| - 1] == WriterTurn {
        RunKeeps(Started(size), actions);
        TurnEmpties(Run(Started(size), actions[..|actions| - 1]));
      } else {
        TurnTakesAll(size, actions[..|actions| - 1]);
      }
    }
  }

  lemma NothingAtStart(size: nat)
    ensures Run(Started(size), []) == Started(size) && Everything(Started(size)) == "" == ConcatAll([])
    ensures Lines(size, []) == "" && (size > 0 ==> Inv(Started(size)))
    ensures forall text: string :: "" + text == text
  {
  }

  lemma TurnEmpties(l: Log)
    ensures ConcatAll(Turn(l).batches) == Everything(Turn(l))
  {
  }

  /** Conservation.  In every interleaving of appends and writer turns, the batches swapped out, the
      full buffers and the current one hold all the lines that fit, in order and once, the batches all
      of those before the last turn; and the file holds, notices aside, exactly those batches without
      the buffers from the third on of each batch of more than 25.  The notices account for every
      buffer left out. */
  lemma NothingElseLost(size: nat, actions: seq<Action>)
    requires size > 0
    ensures var l := Run(Started(size), actions);
            && ConcatAll(l.batches) + Concat(l.full) + l.current == Lines(size, actions)
            && ConcatAll(l.batches) == Lines(size, UpToTurn(actions))
            && FileText(l.file) == KeptText(l.batches)
            && Admitted(l.file) == DroppedBuffers(l.batches)
  {
    hide Run;
    RunKeeps(Started(size), actions);
    TurnTakesAll(size, actions);
  }

  // ---------- when nothing is left out ----------

  /** From the third buffer on, a batch of more than 25 has only empty ones. */
  predicate NothingLeftOut(batch: seq<string>) {
    |batch| > MAX_BATCH ==> forall i :: 2 <= i < |batch| ==> batch[i] == ""
  }

  lemma {:induction false} ConcatPrefix(texts: seq<string>, k: nat)
    requires k <= |texts|
    ensures |Concat(texts[..k])| <= |Concat(texts)|
    ensures |Concat(texts[..k])| == |Concat(texts)| <==> forall i :: k <= i < |texts| ==> texts[i] == ""
    ensures |Concat(texts[..k])| == |Concat(texts)| ==> Concat(texts[..k]) == Concat(texts)
    decreases |texts|
  {
    if k == |texts| {
      assert texts[..k] == texts;
    } else {
      var n := |texts| - 1;
      ConcatPrefix(texts[..n], k);
      assert texts[..n][..k] == texts[..k];
      assert forall i :: k <= i < n ==> texts[..n][i] == texts[i];
    }
  }

  lemma KeptExact(batch: seq<string>)
    ensures |Concat(Kept(batch))| <= |Concat(batch)|
    ensures |Concat(Kept(batch))| == |Concat(batch)| <==> NothingLeftOut(batch)
    ensures NothingLeftOut(batch) ==> Concat(Kept(batch)) == Concat(batch)
  {
    if |batch| > MAX_BATCH {
      ConcatPrefix(batch, 2);
    }
  }

  lemma {:induction false} KeptTextExact(batches: seq<seq<string>>)
    ensures |KeptText(batches)| <= |ConcatAll(batches)|
    ensures |KeptText(batches)| == |ConcatAll(batches)| <==> forall b :: b in batches ==> NothingLeftOut(b)
    ensures |KeptText(batches)| == |ConcatAll(batches)| ==> KeptText(batches) == ConcatAll(batches)
    decreases |batches|
  {
    hide NothingLeftOut, Concat, Kept;
    if batches != [] {
      var init, last := batches[..|batches| - 1], batches[|batches| - 1];
      assert batches == init + [last];
      KeptTextExact(init);
      KeptExact(last);
    }
  }

  /** Of a batch only the last buffer, the one being filled at the time, may be empty. */
  predicate LastMayBeEmpty(batch: seq<string>) {
    forall i :: 0 <= i < |batch| - 1 ==> batch[i] != ""
  }

  ghost predicate NoneEmpty(l: Log) {
    (forall t :: t in l.full ==> t != "") && (forall b :: b in l.batches ==> LastMayBeEmpty(b))
  }

  predicate Fits(size: nat, a: Action) {
    a.Line? ==> |a.text| < size
  }

  lemma StepRetires(l: Log, a: Action)
    requires NoneEmpty(l) && Fits(l.size, a)
    ensures NoneEmpty(Next(l, a)) && Next(l, a).size == l.size
  {
    var batch := l.full + [l.current];
    assert LastMayBeEmpty(batch) by {
      assert forall i :: 0 <= i < |batch| - 1 ==> batch[i] == l.full[i] && l.full[i] in l.full;
    }
  }

  lemma {:induction false} RunRetires(l: Log, actions: seq<Action>)
    requires NoneEmpty(l) && forall a :: a in actions ==> Fits(l.size, a)
    ensures NoneEmpty(Run(l, actions))
    decreases |actions|
  {
    hide NoneEmpty, Fits, Next;
    if actions != [] {
      assert actions[0] in actions;
      assert forall a :: a in actions[1..] ==> a in actions;
      StepRetires(l, actions[0]);
      RunRetires(Next(l, actions[0]), actions[1..]);
    }
  }

  /** The file, the full buffers and the current one hold every line that fits. */
  ghost predicate HoldsEveryLine(size: nat, actions: seq<Action>) {
    var l := Run(Started(size), actions);
    FileText(l.file) + Concat(l.full) + l.current == Lines(size, actions)
  }

  /** In every run, every line that fits is kept exactly when each batch of more than 25 buffers has
      only empty ones from the third on. */
  lemma EveryLineExact(size: nat, actions: seq<Action>)
    requires size > 0
    ensures HoldsEveryLine(size, actions) <==>
            forall b :: b in Run(Started(size), actions).batches ==> NothingLeftOut(b)
  {
    hide FileText, Concat, ConcatAll, KeptText, NothingLeftOut, Run, Lines;
    var l := Run(Started(size), actions);
    NothingElseLost(size, actions);
    KeptTextExact(l.batches);
    Rests(KeptText(l.batches), ConcatAll(l.batches), Concat(l.full), l.current);
  }

  lemma Rests(kept: string, all: string, full: string, current: string)
    ensures kept + full + current == all + full + current <==> kept == all
  {
    if kept + full + current == all + full + current {
      assert kept == (kept + full + current)[..|kept|] == (all + full + current)[..|all|] == all;
    }
  }

  /** In every run whose lines are all shorter than a buffer, every line is kept exactly when no batch
      is of more than 25 buffers. */
  lemma SmallBatchesKeepAll(size: nat, actions: seq<Action>)
    requires size > 0 && forall a :: a in actions ==> Fits(size, a)
    ensures HoldsEveryLine(size, actions) <==>
            forall b :: b in Run(Started(size), actions).batches ==> |b| <= MAX_BATCH
  {
    hide HoldsEveryLine, Run;
    EveryLineExact(size, actions);
    RunRetires(Started(size), actions);
    forall b | b in Run(Started(size), actions).batches ensures NothingLeftOut(b) <==> |b| <= MAX_BATCH {
      assert |b| > MAX_BATCH ==> b[2] != "";
    }
  }
}

module AsyncLoggers {
  import opened LogRounds
  import opened Numbers

  /** A buffer on the heap.  It has exactly one owner at a time, a `unique_ptr`, so it is a value that
      moves from owner to owner; `id` says which buffer it is, `text` is what has been put into it. */
  datatype Buffer = Buffer(id: nat, text: string)
  datatype Ptr = Null | Owns(buffer: Buffer)

  function Texts(bs: seq<Buffer>): seq<string> {
    if bs == [] then [] else Texts(bs[..|bs| - 1]) + [bs[|bs| - 1].text]
  }

  /** All the places a buffer can be in: the vector, and four pointers. */
  datatype Hands = Hands(full: seq<Buffer>, current: Ptr, next: Ptr, first: Ptr, second: Ptr)

  ghost function Count(bs: seq<Buffer>, id: nat): nat {
    if bs == [] then 0 else Count(bs[..|bs| - 1], id) + OneIf(bs[|bs| - 1].id == id)
  }

  ghost function Holds(p: Ptr, id: nat): nat {
    OneIf(p.Owns? && p.buffer.id == id)
  }

  ghost function Owners(h: Hands, id: nat): nat {
    Count(h.full, id) + Holds(h.current, id) + Holds(h.next, id) + Holds(h.first, id) + Holds(h.second, id)
  }

  /** No buffer has two owners, and none is owned that was not made. */
  ghost predicate OwnedOnce(h: Hands, made: nat) {
    forall id: nat :: Owners(h, id) <= OneIf(id < made)
  }

  lemma Snoc(bs: seq<Buffer>, b: Buffer)
    ensures Texts(bs + [b]) == Texts(bs) + [b.text]
    ensures forall id: nat :: Count(bs + [b], id) == Count(bs, id) + OneIf(b.id == id)
  {
    assert (bs + [b])[..|bs|] == bs;
  }

  lemma {:induction false} TextsPrefix(bs: seq<Buffer>, i: nat)
    requires i <= |bs|
    ensures |Texts(bs)| == |bs| && Texts(bs[..i]) == Texts(bs)[..i]
    ensures forall id: nat :: Count(bs[..i], id) <= Count(bs, id)
    decreases |bs|
  {
    if i == |bs| {
      assert bs[..i] == bs;
      if bs != [] {
        TextsPrefix(bs[..i - 1], i - 1);
      }
    } else {
      TextsPrefix(bs[..|bs| - 1], i);
      assert bs[..|bs| - 1][..i] == bs[..i];
    }
  }

  class AsyncLogging {
    const size: nat
    var currentBuffer: Ptr
    var nextBuffer: Ptr
    var buffers: seq<Buffer>
    // the writer thread's own
    var firstNewBuffer: Ptr
    var secondNewBuffer: Ptr
    var file: seq<Chunk>
    ghost var batches: seq<seq<string>>
    var made: nat  // buffers allocated so far; the next one gets this number

    ghost function InHands(): Hands
      reads this
    {
      Hands(buffers, currentBuffer, nextBuffer, firstNewBuffer, secondNewBuffer)
    }

    /** What holds whenever the mutex is free and the writer is at the head of its loop: no buffer has
        two owners, the spares are there and empty, and the source's assertions hold. */
    ghost predicate Valid()
      reads this
    {
      && OwnedOnce(InHands(), made)
      && currentBuffer.Owns? && |currentBuffer.buffer.text| < size
      && (nextBuffer.Null? ==> buffers != [])
      && (nextBuffer.Owns? ==> nextBuffer.buffer.text == "")
      && firstNewBuffer.Owns? && firstNewBuffer.buffer.text == ""
      && secondNewBuffer.Owns? && secondNewBuffer.buffer.text == ""
    }

    ghost function State(): Log
      requires currentBuffer.Owns?
      reads this
    {
      Log(size, currentBuffer.buffer.text, nextBuffer.Owns?, Texts(buffers), file, batches)
    }

    constructor (size: nat)
      requires size > 0
      ensures Valid() && State() == Started(size)
    {
      this.size := size;
      currentBuffer, nextBuffer := Owns(Buffer(0, "")), Owns(Buffer(1, ""));
      firstNewBuffer, secondNewBuffer := Owns(Buffer(2, "")), Owns(Buffer(3, ""));
      buffers, file, batches, made := [], [], [], 4;
    }

    /** Keeps every buffer it finds; makes one only when there is no spare. */
    method Append(line: string)
      requires Valid()
      modifies `currentBuffer, `nextBuffer, `buffers, `made
      ensures Valid() && State() == LogRounds.Append(old(State()), line)
      ensures forall id: nat ::
                Owners(InHands(), id) == old(Owners(InHands(), id)) + OneIf(old(made) <= id < made)
      ensures made ==
              old(made) + OneIf(|old(currentBuffer.buffer.text)| + |line| >= size && old(nextBuffer.Null?))
    {
      hide Texts, Count;
      var current := currentBuffer.buffer;
      if size - |current.text| > |line| {
        currentBuffer := Owns(current.(text := current.text + line));
        assert forall id: nat :: Owners(InHands(), id) == old(Owners(InHands(), id));
      } else {
        Rotate();
        label rotated:
        currentBuffer := Owns(currentBuffer.buffer.(text := Filled(size, "", line)));
        assert forall id: nat :: Owners(InHands(), id) == old@rotated(Owners(InHands(), id));
      }
    }

    /** The current buffer joins the full ones; the spare, or a new one, takes its place. */
    method Rotate()
      requires Valid()
      modifies `currentBuffer, `nextBuffer, `buffers, `made
      ensures OwnedOnce(InHands(), made)
      ensures forall id: nat ::
                Owners(InHands(), id) == old(Owners(InHands(), id)) + OneIf(old(made) <= id < made)
      ensures made == old(made) + OneIf(old(nextBuffer.Null?))
      ensures currentBuffer.Owns? && currentBuffer.buffer.text == "" && nextBuffer.Null?
      ensures buffers != [] && Texts(buffers) == Texts(old(buffers)) + [old(currentBuffer.buffer.text)]
    {
      hide Texts, Count;
      Snoc(buffers, currentBuffer.buffer);
      buffers, currentBuffer := buffers + [currentBuffer.buffer], Null;
      if nextBuffer.Owns? {
        currentBuffer, nextBuffer := nextBuffer, Null;
      } else {
        currentBuffer, made := Owns(Buffer(made, "")), made + 1;
      }
      assert forall id: nat ::
          Owners(InHands(), id) == old(Owners(InHands(), id)) + OneIf(old(made) <= id < made);
    }

    /** The writer's turn, from the end of its wait: of what it then owns all but two empty buffers
        is freed. */
    method WriterTurn()
      requires Valid()
      modifies this
      ensures Valid() && State() == Turn(old(State())) && nextBuffer.Owns?
      ensures made == old(made) && forall id: nat :: Owners(InHands(), id) <= old(Owners(InHands(), id))
    {
      hide Texts, Written, Count;
      assert firstNewBuffer.Owns? && |firstNewBuffer.buffer.text| == 0;
      assert secondNewBuffer.Owns? && |secondNewBuffer.buffer.text| == 0;
      var bufferToWrite := SwapOut();
      var left := WriteBatch(bufferToWrite);
      Refill(left);
    }

    /** The spares go to the front-end and everything filled comes to the writer. */
    method SwapOut() returns (bufferToWrite: seq<Buffer>)
      requires Valid()
      modifies `currentBuffer, `nextBuffer, `buffers, `firstNewBuffer, `secondNewBuffer, `batches
      ensures currentBuffer.Owns? && currentBuffer.buffer.text == ""
      ensures nextBuffer.Owns? && nextBuffer.buffer.text == ""
      ensures buffers == [] && firstNewBuffer.Null? && Texts(buffers) == []
      ensures secondNewBuffer.Owns? ==> secondNewBuffer.buffer.text == ""
      ensures |bufferToWrite| >= if secondNewBuffer.Null? then 2 else 1
      ensures Texts(bufferToWrite) == Texts(old(buffers)) + [old(currentBuffer.buffer.text)]
      ensures batches == old(batches) + [Texts(bufferToWrite)]
      ensures forall id: nat :: Owners(InHands(), id) + Count(bufferToWrite, id) == old(Owners(InHands(), id))
    {
      hide OwnedOnce;
      Snoc(buffers, currentBuffer.buffer);
      buffers := buffers + [currentBuffer.buffer];
      currentBuffer, firstNewBuffer := firstNewBuffer, Null;
      bufferToWrite := buffers;
      buffers := [];
      if nextBuffer.Null? {
        nextBuffer, secondNewBuffer := secondNewBuffer, Null;
      }
      assert bufferToWrite != [];
      batches := batches + [Texts(bufferToWrite)];
    }

    /** Writes the batch, dropping all but two buffers of a large one, and keeps two at most. */
    method WriteBatch(bufferToWrite: seq<Buffer>) returns (left: seq<Buffer>)
      requires bufferToWrite != []
      modifies `file
      ensures file == old(file) + Written(Texts(bufferToWrite))
      ensures |left| == if |bufferToWrite| < 2 then |bufferToWrite| else 2
      ensures forall id: nat :: Count(left, id) <= Count(bufferToWrite, id)
    {
      hide Texts, Count, Chunks;
      left := bufferToWrite;
      TextsPrefix(bufferToWrite, |bufferToWrite|);
      TextsPrefix(bufferToWrite, if |bufferToWrite| < 2 then 1 else 2);
      if |bufferToWrite| > MAX_BATCH {
        file := file + [Notice(|bufferToWrite| - 2)];
        left := left[..2];
      }
      WriteAll(left);
      if |left| > 2 {
        left := left[..2];
      }
    }

    method WriteAll(bufferToWrite: seq<Buffer>)
      modifies `file
      ensures file == old(file) + Chunks(Texts(bufferToWrite))
    {
      var i := 0;
      while i < |bufferToWrite|
        invariant 0 <= i <= |bufferToWrite|
        invariant file == old(file) + Chunks(Texts(bufferToWrite[..i]))
      {
        ChunksOfNext(bufferToWrite, i);
        file := file + [Data(bufferToWrite[i].text)];
        i := i + 1;
      }
      assert bufferToWrite[..i] == bufferToWrite;
    }

    /** The emptied buffers replace the spares that were given away. */
    method Refill(bufferToWrite: seq<Buffer>)
      requires firstNewBuffer.Null? && 1 <= |bufferToWrite| <= 2
      requires secondNewBuffer.Null? ==> |bufferToWrite| == 2
      requires secondNewBuffer.Owns? ==> secondNewBuffer.buffer.text == ""
      modifies `firstNewBuffer, `secondNewBuffer
      ensures firstNewBuffer.Owns? && firstNewBuffer.buffer.text == ""
      ensures secondNewBuffer.Owns? && secondNewBuffer.buffer.text == ""
      ensures forall id: nat :: Owners(InHands(), id) <= old(Owners(InHands(), id)) + Count(bufferToWrite, id)
    {
      var left := bufferToWrite;
      var back := left[|left| - 1];
      firstNewBuffer, left := Owns(back.(text := "")), left[..|left| - 1];
      if secondNewBuffer.Null? {
        assert left != [];
        back := left[|left| - 1];
        secondNewBuffer, left := Owns(back.(text := "")), left[..|left| - 1];
      }
    }
  }

  lemma ChunksOfNext(bs: seq<Buffer>, i: nat)
    requires i < |bs|
    ensures Chunks(Texts(bs[..i + 1])) == Chunks(Texts(bs[..i])) + [Data(bs[i].text)]
  {
    var texts := Texts(bs[..i]);
    assert bs[..i + 1][..i] == bs[..i];
    assert Texts(bs[..i + 1]) == texts + [bs[i].text];
    assert (texts + [bs[i].text])[..|texts|] == texts;
  }
}
