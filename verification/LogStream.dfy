/** Integer formatting and the fixed log buffers (RN/base/LogStream.cpp, RN/base/LogStream.h).

`Numerals` says which text a number has and proves it can be read back; `LogStreams` holds the
loops that write that text in place, last digit first, and turn it round.
*/
module Numerals {
  const HEX_DIGITS: string := "0123456789ABCDEF"

  /** Indexed from the middle, so that a remainder of either sign finds its digit. */
  const MIRRORED_DIGITS: string := "9876543210123456789"
  const ZERO: nat := 9

  type Base = b: nat | b == 10 || b == 16 witness 10

  function DigitChar(d: nat): char
    requires d < 16
  {
    HEX_DIGITS[d]
  }

  /** Division and remainder of the source language: towards zero, with the sign of the dividend. */
  function TruncDiv(a: int, b: Base): int {
    if a >= 0 then a / b else -(-a / b)
  }

  function TruncMod(a: int, b: Base): int {
    a - TruncDiv(a, b) * b
  }

  function Abs(a: int): nat {
    if a < 0 then -a else a
  }

  /** The digits of n, most significant first. */
  function Numeral(n: nat, b: Base): string {
    if n < b then [DigitChar(n)] else Numeral(n / b, b) + [DigitChar(n % b)]
  }

  function Text(v: int): string {
    if v < 0 then "-" + Numeral(-v, 10) else Numeral(v, 10)
  }

  // ---------- reading back ----------

  predicate IsDigit(c: char, b: Base) {
    '0' <= c <= '9' || (b == 16 && 'A' <= c <= 'F')
  }

  function DigitValue(c: char, b: Base): (d: nat)
    requires IsDigit(c, b)
    ensures d < b && DigitChar(d) == c
  {
    if c <= '9' then c as int - '0' as int else c as int - 'A' as int + 10
  }

  ghost predicate AllDigits(s: string, b: Base) {
    forall i :: 0 <= i < |s| ==> IsDigit(s[i], b)
  }

  /** Written without superfluous zeros. */
  ghost predicate Canonical(s: string, b: Base) {
    s != [] && AllDigits(s, b) && (|s| > 1 ==> s[0] != '0')
  }

  ghost function ReadNat(s: string, b: Base): nat
    requires AllDigits(s, b)
  {
    if s == [] then 0 else ReadNat(s[..|s| - 1], b) * b + DigitValue(s[|s| - 1], b)
  }

  ghost predicate CanonicalInt(s: string) {
    if s != [] && s[0] == '-' then Canonical(s[1..], 10) && s[1..] != "0" else Canonical(s, 10)
  }

  ghost function ReadInt(s: string): int
    requires CanonicalInt(s)
  {
    if s[0] == '-' then 0 - ReadNat(s[1..], 10) else ReadNat(s, 10)
  }

  lemma DigitRoundTrip(d: nat, b: Base)
    requires d < b
    ensures IsDigit(DigitChar(d), b) && DigitValue(DigitChar(d), b) == d
    ensures DigitChar(d) == '0' <==> d == 0
  {
  }

  /** The numeral of n has no superfluous zeros and reads as n. */
  lemma {:induction false} NumeralReads(n: nat, b: Base)
    ensures Canonical(Numeral(n, b), b) && ReadNat(Numeral(n, b), b) == n
    ensures n > 0 ==> Numeral(n, b)[0] != '0'
    decreases n
  {
    if n < b {
      DigitRoundTrip(n, b);
      assert Numeral(n, b)[..0] == [];
    } else {
      NumeralReads(n / b, b);
      DigitRoundTrip(n % b, b);
      var s := Numeral(n, b);
      assert s[..|s| - 1] == Numeral(n / b, b);
    }
  }

  /** Every string of digits without superfluous zeros is the numeral of what it reads as. */
  lemma {:induction false} NumeralOfRead(s: string, b: Base)
    requires Canonical(s, b)
    ensures Numeral(ReadNat(s, b), b) == s
    ensures s[0] != '0' ==> ReadNat(s, b) > 0
    decreases |s|
  {
    hide DigitChar;
    var init, last := s[..|s| - 1], DigitValue(s[|s| - 1], b);
    if |s| == 1 {
      OneDigit(s[0], b);
      assert s == [s[0]];
    } else {
      assert init[0] == s[0];
      NumeralOfRead(init, b);
      LastDigit(init, last, ReadNat(init, b), b);
      assert s == init + [DigitChar(last)];
    }
  }

  lemma OneDigit(c: char, b: Base)
    requires IsDigit(c, b)
    ensures ReadNat([c], b) == DigitValue(c, b) && Numeral(DigitValue(c, b), b) == [c]
    ensures c != '0' ==> DigitValue(c, b) > 0
  {
    assert [c][..0] == [] && ReadNat([], b) == 0;
  }

  lemma LastDigit(init: string, last: nat, q: nat, b: Base)
    requires last < b && q > 0 && Numeral(q, b) == init
    ensures Numeral(q * b + last, b) == init + [DigitChar(last)] && q * b + last > 0
  {
    DivMod(q, last, b);
    assert q * b >= b;
  }

  lemma DivMod(q: nat, r: nat, b: Base)
    requires r < b
    ensures (q * b + r) / b == q && (q * b + r) % b == r
  {
    if b == 10 {
      assert (q * 10 + r) / 10 == q;
    } else {
      assert (q * 16 + r) / 16 == q;
    }
  }

  lemma NegativeReads(s: string)
    requires CanonicalInt(s) && s[0] == '-'
    ensures ReadInt(s) < 0 && Text(ReadInt(s)) == s
  {
    hide Numeral, ReadNat;
    NumeralOfRead(s[1..], 10);
    assert s == "-" + s[1..];
    assert |s[1..]| == 1 ==> s[1..] == [s[1]];
  }

  /** Formatting and reading are inverse to each other on all integers and all canonical numerals. */
  lemma IntegerRoundTrip(v: int, s: string)
    ensures CanonicalInt(Text(v)) && ReadInt(Text(v)) == v
    ensures CanonicalInt(s) ==> Text(ReadInt(s)) == s
  {
    NumeralReads(Abs(v), 10);
    if v < 0 {
      assert Text(v)[1..] == Numeral(-v, 10);
      NumeralReads(0, 10);
    }
    if CanonicalInt(s) {
      if s[0] == '-' {
        NegativeReads(s);
      } else {
        NumeralOfRead(s, 10);
      }
    }
  }

  // ---------- lengths ----------

  function Pow(b: Base, k: nat): nat {
    if k == 0 then 1 else b * Pow(b, k - 1)
  }

  /** A numeral has at most k digits exactly when the number is below the k-th power of the base. */
  lemma {:induction false} NumeralLength(n: nat, b: Base, k: nat)
    requires k >= 1
    ensures |Numeral(n, b)| <= k <==> n < Pow(b, k)
    decreases k
  {
    if n >= b {
      if k > 1 {
        NumeralLength(n / b, b, k - 1);
        DivBelow(n, b, Pow(b, k - 1));
      }
    } else {
      PowAtLeast(b, k);
    }
  }

  lemma DivBelow(n: nat, b: Base, p: nat)
    ensures n / b < p <==> n < b * p
  {
  }

  lemma {:induction false} PowAtLeast(b: Base, k: nat)
    requires k >= 1
    ensures Pow(b, k) >= b
    decreases k
  {
    if k > 1 {
      PowAtLeast(b, k - 1);
    }
  }

  const MIN_INT64: int := -0x8000_0000_0000_0000
  const MAX_UINT64: int := 0xffff_ffff_ffff_ffff

  lemma PowersOfTen()
    ensures Pow(10, 19) == 10_000_000_000_000_000_000
  {
    assert Pow(10, 5) == 100_000;
    assert Pow(10, 10) == 10_000_000_000 by { assert Pow(10, 7) == 10_000_000; }
    assert Pow(10, 13) == 10_000_000_000_000;
    assert Pow(10, 16) == 10_000_000_000_000_000;
  }

  lemma PowersOfSixteen()
    ensures Pow(16, 16) == MAX_UINT64 + 1
  {
    assert Pow(16, 4) == 0x1_0000;
    assert Pow(16, 8) == 0x1_0000_0000;
    assert Pow(16, 12) == 0x1_0000_0000_0000;
  }

  /** Any 64-bit integer, signed or not, takes at most 20 characters, and a pointer 16 digits. */
  lemma FitsInt64(v: int)
    requires MIN_INT64 <= v <= MAX_UINT64
    ensures |Text(v)| <= 20
    ensures v >= 0 ==> |Numeral(v, 16)| <= 16
  {
    PowersOfTen();
    PowersOfSixteen();
    NumeralLength(Abs(v), 10, 19);
    NumeralLength(Abs(v), 10, 20);
    NumeralLength(Abs(v), 16, 16);
  }

  // ---------- digits from the right ----------

  function Reverse(s: string): (r: string)
    ensures |r| == |s|
  {
    if s == [] then [] else Reverse(s[1..]) + [s[0]]
  }

  lemma {:induction false} ReverseAt(s: string, k: nat)
    requires k < |s|
    ensures Reverse(s)[k] == s[|s| - 1 - k]
    decreases |s|
  {
    if k < |s| - 1 {
      ReverseAt(s[1..], k);
    }
  }

  /** A part of a text being turned round: j characters at each end have changed places. */
  function Turning(before: string, part: string, after: string, j: nat): string
    requires 2 * j <= |part|
  {
    before + (Reverse(part)[..j] + part[j..|part| - j] + Reverse(part)[|part| - j..]) + after
  }

  lemma TurnStep(before: string, part: string, after: string, j: nat)
    requires 2 * j + 2 <= |part|
    ensures var s := Turning(before, part, after, j);
            var lo, hi := |before| + j, |before| + |part| - j - 1;
            |s| == |before| + |part| + |after| && s[lo := s[hi]][hi := s[lo]] == Turning(before, part, after, j + 1)
  {
    hide Reverse;
    var n, r := |part|, Reverse(part);
    var x, y, middle := part[j], part[n - 1 - j], part[j + 1..n - j - 1];
    ReverseAt(part, j);
    ReverseAt(part, n - 1 - j);
    assert part[j..n - j] == [x] + middle + [y];
    assert r[..j + 1] == r[..j] + [y] && r[n - j - 1..] == [x] + r[n - j..];
    var front, back := before + r[..j], r[n - j..] + after;
    assert Turning(before, part, after, j) == front + [x] + middle + [y] + back;
    assert Turning(before, part, after, j + 1) == front + [y] + middle + [x] + back;
    SwapEnds(front, x, middle, y, back);
  }

  lemma SwapEnds(front: string, x: char, middle: string, y: char, back: string)
    ensures var s := front + [x] + middle + [y] + back;
            var lo, hi := |front|, |front| + 1 + |middle|;
            s[lo := s[hi]][hi := s[lo]] == front + [y] + middle + [x] + back
  {
  }

  lemma TurnEnds(before: string, part: string, after: string, j: nat)
    requires 2 * j <= |part| < 2 * j + 2
    ensures Turning(before, part, after, j) == before + Reverse(part) + after
  {
    hide Reverse;
    var r := Reverse(part);
    if |part| == 2 * j + 1 {
      ReverseAt(part, j);
      Middle(part, r, j);
    } else {
      NoMiddle(part, r, j);
    }
  }

  lemma NoMiddle(part: string, r: string, j: nat)
    requires |part| == |r| == 2 * j
    ensures r[..j] + part[j..|part| - j] + r[|part| - j..] == r
  {
    var n := |part| - j;
    assert n == j;
    assert part[j..n] == [];
    assert r[..j] + r[n..] == r;
  }

  lemma Middle(part: string, r: string, j: nat)
    requires |part| == |r| == 2 * j + 1 && r[j] == part[j]
    ensures r[..j] + part[j..|part| - j] + r[|part| - j..] == r
  {
    assert part[j..j + 1] == [r[j]];
  }

  lemma TurnStarts(before: string, part: string, after: string)
    ensures Turning(before, part, after, 0) == before + part + after
  {
    assert Reverse(part)[..0] + part[0..|part|] + Reverse(part)[|part|..] == part;
  }

  lemma {:induction false} ReverseAppend(s: string, c: char)
    ensures Reverse(s + [c]) == [c] + Reverse(s)
    decreases |s|
  {
    if s != [] {
      ReverseAppend(s[1..], c);
      assert (s + [c])[1..] == s[1..] + [c];
    } else {
      assert ([] + [c])[1..] == [];
    }
  }

  /** The state of a digit loop: `done` holds the last digits of n, last one first, and i the others. */
  ghost predicate Remaining(n: nat, b: Base, i: nat, done: string, more: bool) {
    Numeral(n, b) == (if more then Numeral(i, b) else "") + Reverse(done)
  }

  lemma RemainingStart(n: nat, b: Base)
    ensures Remaining(n, b, n, "", true)
  {
    assert Numeral(n, b) + "" == Numeral(n, b);
  }

  lemma RemainingEnds(n: nat, b: Base, i: nat, done: string)
    requires Remaining(n, b, i, done, false)
    ensures Reverse(done) == Numeral(n, b)
  {
  }

  lemma RemainingStep(n: nat, b: Base, i: nat, done: string)
    requires Remaining(n, b, i, done, true)
    ensures |done| < |Numeral(n, b)|
    ensures Remaining(n, b, i / b, done + [DigitChar(i % b)], i / b != 0)
    ensures i / b != 0 ==> i / b < i
  {
    hide Numeral;
    hide Reverse;
    NumeralSplits(i, b);
    var front, c := if i / b != 0 then Numeral(i / b, b) else "", DigitChar(i % b);
    ReverseAppend(done, c);
    assert (front + [c]) + Reverse(done) == front + ([c] + Reverse(done));
  }

  lemma NumeralSplits(i: nat, b: Base)
    ensures Numeral(i, b) == (if i / b != 0 then Numeral(i / b, b) else "") + [DigitChar(i % b)]
    ensures i / b != 0 ==> i / b < i
  {
    if b == 10 {
      assert i < 10 ==> i / 10 == 0 && i % 10 == i;
    } else {
      assert i < 16 ==> i / 16 == 0 && i % 16 == i;
    }
  }

  /** One turn of the digit loop: the last digit moves from the number to the text. */
  lemma DigitStep(i: int, b: Base)
    ensures -9 <= TruncMod(i, 10) <= 9
    ensures MIRRORED_DIGITS[ZERO + TruncMod(i, 10)] == DigitChar(Abs(i) % 10)
    ensures Abs(TruncDiv(i, b)) == Abs(i) / b
    ensures TruncDiv(i, b) == 0 <==> Abs(i) < b
    ensures Abs(i) < b ==> Abs(i) % b == Abs(i)
  {
  }
}

module LogStreams {
  import opened Numerals

  const SMALL_BUFFER: nat := 4000
  const MAX_NUMERIC_SIZE: nat := 32

  /** A fixed block of characters with a write position that never reaches its end. */
  class FixedBuffer {
    const data: array<char>
    var cur: nat

    ghost predicate Valid()
      reads this
    {
      cur < data.Length
    }

    ghost function Contents(): string
      requires Valid()
      reads this, data
    {
      data[..cur]
    }

    constructor (size: nat)
      requires size > 0
      ensures Valid() && fresh(data) && data.Length == size && Contents() == ""
    {
      data := new char[size];
      cur := 0;
    }

    function Avail(): nat
      requires Valid()
      reads this
    {
      data.Length - cur
    }

    /** Takes the whole text or, when it would leave no room after it, nothing. */
    method Append(text: string)
      requires Valid()
      modifies this, data
      ensures Valid()
      ensures Contents() == if old(Avail()) > |text| then old(Contents()) + text else old(Contents())
    {
      if Avail() > |text| {
        CopyIn(text);
        cur := cur + |text|;
      }
    }

    /** `memcpy` to the write position. */
    method CopyIn(text: string)
      requires Valid() && cur + |text| < data.Length
      modifies data
      ensures data[..cur + |text|] == old(data[..cur]) + text
    {
      ghost var was := data[..cur];
      var k := 0;
      while k < |text|
        invariant 0 <= k <= |text|
        invariant data[..cur + k] == was + text[..k]
      {
        data[cur + k] := text[k];
        assert data[..cur + k + 1] == data[..cur + k] + [text[k]];
        k := k + 1;
      }
    }

    method Reset()
      modifies `cur
      requires Valid()
      ensures Valid() && Contents() == ""
    {
      cur := 0;
    }

    /** `std::reverse` on part of the block. */
    method ReverseRange(from: nat, to: nat)
      requires from <= to <= data.Length
      modifies data
      ensures data[..from] == old(data[..from]) && data[from..to] == Reverse(old(data[from..to]))
      ensures data[to..] == old(data[to..])
    {
      hide Reverse, Turning;
      ghost var before, part, after := data[..from], data[from..to], data[to..];
      ghost var j := 0;
      var lo, hi := from, to;
      TurnStarts(before, part, after);
      assert data[..] == before + part + after;
      while hi - lo >= 2
        invariant from <= lo <= hi + 1 && hi <= to && lo - from == to - hi == j && 2 * j <= |part|
        invariant data[..] == Turning(before, part, after, j)
      {
        TurnStep(before, part, after, j);
        ghost var was := data[..];
        data[lo], data[hi - 1] := data[hi - 1], data[lo];
        assert data[..] == was[lo := was[hi - 1]][hi - 1 := was[lo]];
        lo, hi, j := lo + 1, hi - 1, j + 1;
      }
      TurnEnds(before, part, after, j);
      assert data[..from] == data[..][..from] && data[from..to] == data[..][from..to] && data[to..] == data[..][to..];
    }

    /** One turn of a digit loop: writes the digit at `p`, after those from `at` on. */
    method PutDigit(at: nat, p: nat, c: char)
      requires at <= p < data.Length
      modifies data
      ensures data[at..p + 1] == old(data[at..p]) + [c] && data[..at] == old(data[..at])
    {
      data[p] := c;
      assert data[at..p + 1] == data[at..p] + [data[p]];
    }

    /** The end of a conversion: terminator and turn. */
    method Finish(at: nat, p: nat)
      requires at <= p < data.Length
      modifies data
      ensures data[..at] == old(data[..at]) && data[at..p] == Reverse(old(data[at..p])) && data[p] == '\0'
    {
      data[p] := '\0';
      ReverseRange(at, p);
      assert data[p] == data[p..][0];
    }

    /** Digits from the right, the sign, the terminator, and the turn. */
    method Convert(at: nat, value: int) returns (len: nat)
      requires at + |Text(value)| < data.Length
      modifies data
      ensures len == |Text(value)|
      ensures data[..at] == old(data[..at]) && data[at..at + len] == Text(value) && data[at + len] == '\0'
    {
      hide Numeral, Reverse, Remaining, TruncDiv, TruncMod;
      var i, p, more := value, at, true;
      RemainingStart(Abs(value), 10);
      assert data[at..p] == "";
      while more
        invariant at <= p <= data.Length && Remaining(Abs(value), 10, Abs(i), data[at..p], more)
        invariant data[..at] == old(data[..at])
        decreases more, Abs(i)
      {
        DigitStep(i, 10);
        RemainingStep(Abs(value), 10, Abs(i), data[at..p]);
        var lsd := TruncMod(i, 10);
        i := TruncDiv(i, 10);
        PutDigit(at, p, MIRRORED_DIGITS[ZERO + lsd]);
        p := p + 1;
        more := i != 0;
      }
      RemainingEnds(Abs(value), 10, Abs(i), data[at..p]);
      if value < 0 {
        ReverseAppend(data[at..p], '-');
        PutDigit(at, p, '-');
        p := p + 1;
      }
      Finish(at, p);
      len := p - at;
    }

    method ConvertHex(at: nat, value: nat) returns (len: nat)
      requires at + |Numeral(value, 16)| < data.Length
      modifies data
      ensures len == |Numeral(value, 16)|
      ensures data[..at] == old(data[..at]) && data[at..at + len] == Numeral(value, 16) && data[at + len] == '\0'
    {
      hide Numeral;
      var i, p, more := value, at, true;
      RemainingStart(value, 16);
      assert data[at..p] == "";
      while more
        invariant at <= p <= data.Length && Remaining(value, 16, i, data[at..p], more)
        invariant data[..at] == old(data[..at])
        decreases more, i
      {
        RemainingStep(value, 16, i, data[at..p]);
        var lsd := i % 16;
        i := i / 16;
        PutDigit(at, p, HEX_DIGITS[lsd]);
        p := p + 1;
        more := i != 0;
      }
      Finish(at, p);
      len := p - at;
    }

    /** `add`: what was written at the write position now counts. */
    method Add(len: nat)
      requires cur + len < data.Length
      modifies `cur
      ensures cur == old(cur) + len
    {
      cur := cur + len;
    }
  }

  class LogStream {
    const buffer: FixedBuffer

    ghost predicate Valid()
      reads this, buffer
    {
      buffer.Valid()
    }

    constructor ()
      ensures Valid() && fresh(buffer) && fresh(buffer.data) && buffer.Contents() == ""
    {
      buffer := new FixedBuffer(SMALL_BUFFER);
    }

    /** `<<` of any integer: its whole text, or nothing when fewer than 32 characters are left. */
    method FormatInteger(v: int)
      requires Valid() && MIN_INT64 <= v <= MAX_UINT64
      modifies buffer, buffer.data
      ensures Valid()
      ensures buffer.Contents() ==
              old(buffer.Contents()) + if old(buffer.Avail()) >= MAX_NUMERIC_SIZE then Text(v) else ""
    {
      if buffer.Avail() >= MAX_NUMERIC_SIZE {
        FitsInt64(v);
        var len := buffer.Convert(buffer.cur, v);
        JoinParts(buffer.data, buffer.cur, len);
        buffer.Add(len);
      }
    }

    /** `<<` of a pointer. */
    method FormatPointer(v: nat)
      requires Valid() && v <= MAX_UINT64
      modifies buffer, buffer.data
      ensures Valid()
      ensures buffer.Contents() ==
              old(buffer.Contents()) + if old(buffer.Avail()) >= MAX_NUMERIC_SIZE then "0x" + Numeral(v, 16) else ""
    {
      if buffer.Avail() >= MAX_NUMERIC_SIZE {
        hide Numeral;
        hide Text;
        FitsInt64(v);
        buffer.CopyIn("0x");
        var at := buffer.cur + 2;
        var len := buffer.ConvertHex(at, v);
        JoinParts(buffer.data, at, len);
        buffer.Add(len + 2);
        assert buffer.data[..at] == old(buffer.Contents()) + "0x";
        Regroup(old(buffer.Contents()), "0x", Numeral(v, 16));
      }
    }
  }

  lemma Regroup(x: string, y: string, z: string)
    ensures (x + y) + z == x + (y + z)
  {
  }

  lemma JoinParts(a: array<char>, at: nat, len: nat)
    requires at + len <= a.Length
    ensures a[..at + len] == a[..at] + a[at..at + len]
  {
  }
}
