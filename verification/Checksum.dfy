/**
 The Internet checksum with deferred carries (RFC 1071, sections 1 and 2).

 Buffers are sequences of bytes; a 16-bit word is read in the byte order of the machine.
*/
module Checksum {

  type Byte = b: int | 0 <= b < 0x100
  type Word = w: int | 0 <= w < 0x1_0000

  datatype Order = Little | Big

  function WordOf(first: Byte, second: Byte, order: Order): Word {
    match order
    case Little => first + 0x100 * second
    case Big => 0x100 * first + second
  }

  /** The words of a buffer; an odd last byte is padded with a zero byte behind it. */
  function Words(buf: seq<Byte>, order: Order): (ws: seq<Word>)
    ensures |ws| == (|buf| + 1) / 2
  {
    if buf == [] then []
    else if |buf| == 1 then [WordOf(buf[0], 0, order)]
    else [WordOf(buf[0], buf[1], order)] + Words(buf[2..], order)
  }

  function Sum(ws: seq<Word>): (s: nat)
    ensures s <= 0xFFFF * |ws|
  {
    if ws == [] then 0 else ws[0] + Sum(ws[1..])
  }

  /** The two fold steps of the source, on a `long` that is never negative. */
  function Fold(sum: nat): nat {
    var once := sum / 0x1_0000 + sum % 0x1_0000;
    once + once / 0x1_0000
  }

  /** The complement of the low 16 bits. */
  function Complement(n: nat): Word {
    0xFFFF - n % 0x1_0000
  }

  function CheckSum(ws: seq<Word>): Word {
    Complement(Fold(Sum(ws)))
  }

  // ---------------------------------------------------------------- the reference

  /** One's complement addition: the carry out of the top bit comes back in at the bottom. */
  function AddAround(a: Word, b: Word): Word {
    if a + b >= 0x1_0000 then a + b - 0xFFFF else a + b
  }

  /** The running one's complement sum, one word at a time, left to right. */
  function SumAround(ws: seq<Word>): Word {
    if ws == [] then 0 else AddAround(SumAround(ws[..|ws| - 1]), ws[|ws| - 1])
  }

  function ReferenceCheckSum(ws: seq<Word>): Word {
    0xFFFF - SumAround(ws)
  }

  /** The one's complement representative of a plain sum: 0 only for 0, else 1..0xFFFF. */
  function Canon(sum: nat): Word {
    if sum == 0 then 0 else (sum - 1) % 0xFFFF + 1
  }

  lemma {:induction false} SumSnoc(ws: seq<Word>, w: Word)
    ensures Sum(ws + [w]) == Sum(ws) + w
  {
    if ws == [] {
      assert [w][1..] == [];
    } else {
      assert (ws + [w])[1..] == ws[1..] + [w];
      SumSnoc(ws[1..], w);
    }
  }

  lemma {:induction false} SumAroundIsCanon(ws: seq<Word>)
    ensures SumAround(ws) == Canon(Sum(ws))
  {
    if ws != [] {
      var front, w := ws[..|ws| - 1], ws[|ws| - 1];
      SumAroundIsCanon(front);
      assert ws == front + [w];
      SumSnoc(front, w);
      hide Sum, Canon, AddAround;
      CanonStep(Sum(front), w);
    }
  }

  lemma CanonStep(sum: nat, w: Word)
    ensures AddAround(Canon(sum), w) == Canon(sum + w)
  {
  }

  /** Deferring the carries is harmless as long as two folds can absorb them. */
  lemma FoldIsCanon(sum: nat)
    requires sum < 0x1_0000_FFFF
    ensures Fold(sum) % 0x1_0000 == Canon(sum)
  {
    hide Canon;
    var hi, lo := sum / 0x1_0000, sum % 0x1_0000;
    FirstFold(sum, hi, lo);
    var once := hi + lo;
    SecondFold(once);
    FoldTwice(sum);
    hide Fold;
    if sum == 0 {
      ZeroSwaps();
    } else if once < 0x1_0000 {
      CanonIs(sum, once, hi);
    } else {
      CanonIs(sum, once - 0xFFFF, hi + 1);
    }
  }

  lemma FirstFold(sum: nat, hi: nat, lo: nat)
    requires sum < 0x1_0000_FFFF && lo < 0x1_0000 && sum == 0x1_0000 * hi + lo
    ensures sum == (hi + lo) + 0xFFFF * hi && hi + lo <= 0x1_FFFE
  {
  }

  lemma SecondFold(once: nat)
    requires once <= 0x1_FFFE
    ensures (once + once / 0x1_0000) % 0x1_0000 == if once < 0x1_0000 then once else once - 0xFFFF
  {
    if once >= 0x1_0000 {
      assert once / 0x1_0000 == 1;
    }
  }

  lemma CheckSumIsCanon(ws: seq<Word>)
    requires |ws| <= LIMIT / 2
    ensures CheckSum(ws) == 0xFFFF - Canon(Sum(ws))
  {
    FoldIsCanon(Sum(ws));
  }

  // ---------------------------------------------------------------- agreement, with the exact size bound

  /** The largest buffer, in bytes, whose carries the two folds always absorb. */
  const LIMIT: nat := 131076

  lemma DeferredCarriesAgree(ws: seq<Word>)
    requires |ws| <= LIMIT / 2
    ensures CheckSum(ws) == ReferenceCheckSum(ws)
  {
    FoldIsCanon(Sum(ws));
    SumAroundIsCanon(ws);
  }

  lemma {:induction false} WordsConcat(a: seq<Byte>, b: seq<Byte>, order: Order)
    requires |a| % 2 == 0
    ensures Words(a + b, order) == Words(a, order) + Words(b, order)
  {
    if a == [] {
      assert a + b == b;
    } else {
      assert (a + b)[2..] == a[2..] + b;
      WordsConcat(a[2..], b, order);
    }
  }

  lemma {:induction false} SumConcat(a: seq<Word>, b: seq<Word>)
    ensures Sum(a + b) == Sum(a) + Sum(b)
  {
    if a == [] {
      assert a + b == b;
    } else {
      assert (a + b)[1..] == a[1..] + b;
      SumConcat(a[1..], b);
    }
  }

  lemma {:induction false} SumOfOnes(n: nat, order: Order)
    ensures Sum(Words(seq(2 * n, _ => 0xFF as Byte), order)) == 0xFFFF * n
  {
    if n > 0 {
      var ones := seq(2 * n, _ => 0xFF as Byte);
      assert ones[2..] == seq(2 * (n - 1), _ => 0xFF as Byte);
      SumOfOnes(n - 1, order);
    }
  }

  lemma {:induction false} SumOfZeros(n: nat, order: Order)
    ensures Sum(Words(seq(n, _ => 0 as Byte), order)) == 0
  {
    if n > 1 {
      var zeros := seq(n, _ => 0 as Byte);
      assert zeros[2..] == seq(n - 2, _ => 0 as Byte);
      SumOfZeros(n - 2, order);
    }
  }

  /** A buffer of any length above the limit whose plain sum is 0x1_0000_FFFF. */
  function Overflowing(length: nat, order: Order): (buf: seq<Byte>)
    requires length > LIMIT
    ensures |buf| == length
  {
    [0xFF, if order == Little then 0xFF else 0] + seq(2 * 65537, _ => 0xFF as Byte)
    + ([1] + seq(length - LIMIT - 1, _ => 0 as Byte))
  }

  lemma OverflowingSum(length: nat, order: Order)
    requires length > LIMIT
    ensures Sum(Words(Overflowing(length, order), order)) == 0x1_0000_FFFF
  {
    var head: seq<Byte> := [0xFF, if order == Little then 0xFF else 0];
    var ones := seq(2 * 65537, _ => 0xFF as Byte);
    var zeros := seq(length - LIMIT - 1, _ => 0 as Byte);
    var tail: seq<Byte> := [1] + zeros;
    WordsConcat(head + ones, tail, order);
    WordsConcat(head, ones, order);
    SumConcat(Words(head, order) + Words(ones, order), Words(tail, order));
    SumConcat(Words(head, order), Words(ones, order));
    SumOfOnes(65537, order);
    assert Sum(Words(head, order)) == WordOf(head[0], head[1], order) by {
      assert head[2..] == [];
    }
    SumOfOneAndZeros(|zeros|, order);
  }

  lemma SumOfOneAndZeros(n: nat, order: Order)
    ensures Sum(Words([1] + seq(n, _ => 0 as Byte), order)) == WordOf(1, 0, order)
  {
    var tail: seq<Byte> := [1] + seq(n, _ => 0 as Byte);
    if n > 0 {
      assert tail[2..] == seq(n - 1, _ => 0 as Byte);
      SumOfZeros(n - 1, order);
    }
  }

  /**
   The checksum of the source is the one's complement checksum for every buffer of a given length
   exactly when that length is at most 131076 bytes.
  */
  lemma AgreesUpToTheLimit(length: nat, order: Order)
    ensures (forall buf: seq<Byte> :: |buf| == length ==>
               CheckSum(Words(buf, order)) == ReferenceCheckSum(Words(buf, order)))
            <==> length <= LIMIT
  {
    if length <= LIMIT {
      forall buf: seq<Byte> | |buf| == length
        ensures CheckSum(Words(buf, order)) == ReferenceCheckSum(Words(buf, order))
      {
        DeferredCarriesAgree(Words(buf, order));
      }
    } else {
      var buf := Overflowing(length, order);
      OverflowingSum(length, order);
      SumAroundIsCanon(Words(buf, order));
      assert |buf| == length && CheckSum(Words(buf, order)) != ReferenceCheckSum(Words(buf, order));
    }
  }

  // ---------------------------------------------------------------- verifying a stored checksum

  lemma {:induction false} SumUpdate(ws: seq<Word>, i: nat, w: Word)
    requires i < |ws|
    ensures Sum(ws[i := w]) == Sum(ws) - ws[i] + w
  {
    if i == 0 {
      assert ws[0 := w][1..] == ws[1..];
    } else {
      assert ws[i := w][1..] == ws[1..][i - 1 := w];
      SumUpdate(ws[1..], i - 1, w);
    }
  }

  /** A positive sum is represented by the one number in 1..0xFFFF it is congruent to. */
  lemma CanonIs(sum: nat, c: nat, q: int)
    requires sum > 0 && 1 <= c <= 0xFFFF && sum == c + 0xFFFF * q
    ensures Canon(sum) == c
  {
    assert (sum - 1) % 0xFFFF == (c - 1) % 0xFFFF by {
      assert sum - 1 == (c - 1) + 0xFFFF * q;
      ModShift(c - 1, q);
    }
  }

  lemma ModShift(a: nat, q: int)
    requires a < 0xFFFF && a + 0xFFFF * q >= 0
    ensures (a + 0xFFFF * q) % 0xFFFF == a
  {
  }

  /** Storing the checksum in the zeroed check word makes the recomputed checksum zero. */
  lemma StoredCheckSumVerifies(ws: seq<Word>, i: nat)
    requires |ws| <= LIMIT / 2 && i < |ws| && ws[i] == 0
    ensures CheckSum(ws[i := CheckSum(ws)]) == 0
  {
    var sum := Sum(ws);
    FoldIsCanon(sum);
    SumUpdate(ws, i, CheckSum(ws));
    var sum' := sum + (0xFFFF - Canon(sum));
    assert Sum(ws[i := CheckSum(ws)]) == sum';
    assert sum' == 0xFFFF + 0xFFFF * (if sum == 0 then 0 else (sum - 1) / 0xFFFF);
    CanonIs(sum', 0xFFFF, if sum == 0 then 0 else (sum - 1) / 0xFFFF);
    FoldIsCanon(sum');
  }

  function First(w: Word, order: Order): Byte {
    if order == Little then w % 0x100 else w / 0x100
  }

  function Second(w: Word, order: Order): Byte {
    if order == Little then w / 0x100 else w % 0x100
  }

  /** What assigning a 16-bit field at byte offset `at` does to the buffer. */
  function Store(buf: seq<Byte>, at: nat, w: Word, order: Order): (r: seq<Byte>)
    requires at + 1 < |buf|
    ensures |r| == |buf|
  {
    buf[at := First(w, order)][at + 1 := Second(w, order)]
  }

  lemma {:induction false} WordsAt(buf: seq<Byte>, at: nat, first: Byte, second: Byte, order: Order)
    requires at % 2 == 0 && at + 1 < |buf|
    ensures Words(buf[at := first][at + 1 := second], order)
            == Words(buf, order)[at / 2 := WordOf(first, second, order)]
    ensures Words(buf, order)[at / 2] == WordOf(buf[at], buf[at + 1], order)
  {
    hide WordOf;
    var buf' := buf[at := first][at + 1 := second];
    if at == 0 {
      assert buf'[2..] == buf[2..];
    } else {
      assert buf'[2..] == buf[2..][at - 2 := first][at - 1 := second];
      WordsAt(buf[2..], at - 2, first, second, order);
      assert (at - 2) / 2 == at / 2 - 1;
    }
  }

  /**
   A header whose check field (two bytes at an even offset; 10 in an IPv4 header) is zero when it is
   summed verifies once the checksum is stored there.
  */
  lemma HeaderVerifies(header: seq<Byte>, at: nat, order: Order)
    requires |header| <= LIMIT && at % 2 == 0 && at + 1 < |header| && header[at] == header[at + 1] == 0
    ensures CheckSum(Words(Store(header, at, CheckSum(Words(header, order)), order), order)) == 0
  {
    var c := CheckSum(Words(header, order));
    WordsAt(header, at, First(c, order), Second(c, order), order);
    hide CheckSum;
    assert WordOf(First(c, order), Second(c, order), order) == c && WordOf(0, 0, order) == 0;
    StoredCheckSumVerifies(Words(header, order), at / 2);
  }

  /**
   A receiver that recomputes 0 notices every change of a single word, except that 0 and 0xFFFF stand
   for each other while some other word is non-zero.
  */
  lemma SingleWordChange(ws: seq<Word>, i: nat, w: Word)
    requires |ws| <= LIMIT / 2 && i < |ws| && CheckSum(ws) == 0
    ensures CheckSum(ws[i := w]) == 0 <==> w == ws[i] || ({w, ws[i]} == {0, 0xFFFF} && Sum(ws[i := w]) > 0)
  {
    var sum, sum' := Sum(ws), Sum(ws[i := w]);
    FoldIsCanon(sum);
    FoldIsCanon(sum');
    SumUpdate(ws, i, w);
    assert sum > 0 && (sum - 1) % 0xFFFF == 0xFFFE;
    assert sum == 0xFFFF * ((sum - 1) / 0xFFFF + 1);
    var q := (sum - 1) / 0xFFFF;
    if sum' > 0 {
      if w < ws[i] {
        if w == 0 && ws[i] == 0xFFFF { CanonIs(sum', 0xFFFF, q - 1); } else { CanonIs(sum', 0xFFFF + w - ws[i], q); }
      } else if w > ws[i] {
        CanonIs(sum', w - ws[i], q + 1);
      }
    }
    assert {w, ws[i]} == {0, 0xFFFF} <==> (w == 0 && ws[i] == 0xFFFF) || (w == 0xFFFF && ws[i] == 0) by {
      assert w in {w, ws[i]} && ws[i] in {w, ws[i]} && 0 in {0, 0xFFFF} && 0xFFFF in {0, 0xFFFF};
    }
  }

  // ---------------------------------------------------------------- byte order

  function Swap(w: Word): Word {
    w % 0x100 * 0x100 + w / 0x100
  }

  function SwapAll(ws: seq<Word>): (r: seq<Word>)
    ensures |r| == |ws|
  {
    if ws == [] then [] else [Swap(ws[0])] + SwapAll(ws[1..])
  }

  function HighBytes(ws: seq<Word>): nat {
    if ws == [] then 0 else ws[0] / 0x100 + HighBytes(ws[1..])
  }

  lemma {:induction false} SwappedSum(ws: seq<Word>)
    ensures 0x100 * Sum(ws) == Sum(SwapAll(ws)) + 0xFFFF * HighBytes(ws)
    ensures Sum(SwapAll(ws)) == 0 <==> Sum(ws) == 0
  {
    if ws != [] {
      SwappedSum(ws[1..]);
      assert SwapAll(ws)[1..] == SwapAll(ws[1..]);
    }
  }

  lemma CanonSwaps(sum: nat, swapped: nat, high: int)
    requires sum > 0 && swapped > 0 && 0x100 * sum == swapped + 0xFFFF * high
    ensures Canon(swapped) == Swap(Canon(sum))
  {
    var c, q := Canon(sum), (sum - 1) / 0xFFFF;
    assert sum == c + 0xFFFF * q;
    assert 0x100 * c == Swap(c) + 0xFFFF * (c / 0x100);
    CanonIs(swapped, Swap(c), 0x100 * q + c / 0x100 - high);
  }

  lemma ComplementSwaps(c: Word)
    ensures Swap(0xFFFF - c) == 0xFFFF - Swap(c)
  {
    var hi, lo := c / 0x100, c % 0x100;
    assert 0xFFFF - c == 0x100 * (0xFF - hi) + (0xFF - lo);
  }

  /** Swapping the bytes of every word swaps the bytes of the checksum. */
  lemma ByteOrderIndependence(ws: seq<Word>)
    requires |ws| <= LIMIT / 2
    ensures CheckSum(SwapAll(ws)) == Swap(CheckSum(ws))
  {
    hide CheckSum, Canon, Swap, Sum, SwapAll;
    var sum, swapped := Sum(ws), Sum(SwapAll(ws));
    CheckSumIsCanon(ws);
    CheckSumIsCanon(SwapAll(ws));
    SwappedSum(ws);
    ComplementSwaps(Canon(sum));
    if sum > 0 {
      CanonSwaps(sum, swapped, HighBytes(ws));
    } else {
      ZeroSwaps();
    }
  }

  lemma ZeroSwaps()
    ensures Swap(0) == 0 && Canon(0) == 0
  {
  }

  lemma {:induction false} BigIsSwappedLittle(buf: seq<Byte>)
    ensures Words(buf, Big) == SwapAll(Words(buf, Little))
  {
    if |buf| >= 2 {
      BigIsSwappedLittle(buf[2..]);
      assert Words(buf, Little)[1..] == Words(buf[2..], Little);
    } else if |buf| == 1 {
      assert Words(buf, Little)[1..] == [];
    }
  }

  // ---------------------------------------------------------------- the loop

  /** `check_sum` over a whole buffer, on a machine of the given byte order. */
  method ComputeCheckSum(buf: array<Byte>, order: Order) returns (r: Word)
    ensures r == CheckSum(Words(buf[..], order))
    ensures buf.Length <= LIMIT ==> r == ReferenceCheckSum(Words(buf[..], order))
  {
    hide Complement, Fold, ReferenceCheckSum;
    var sum: nat := 0;
    var ptr := 0;
    var count := buf.Length;
    ghost var total := Sum(Words(buf[..], order));
    assert buf[0..] == buf[..];
    while count > 1
      invariant 0 <= count && ptr + count == buf.Length
      invariant sum + Sum(Words(buf[ptr..], order)) == total
    {
      assert buf[ptr..][2..] == buf[ptr + 2..];
      sum := sum + WordOf(buf[ptr], buf[ptr + 1], order);
      ptr := ptr + 2;
      count := count - 2;
    }
    if count == 1 {
      sum := sum + WordOf(buf[ptr], 0, order);
    }
    assert sum == total;
    sum := sum / 0x1_0000 + sum % 0x1_0000;
    sum := sum + sum / 0x1_0000;
    FoldTwice(total);
    r := Complement(sum);
    if buf.Length <= LIMIT {
      DeferredCarriesAgree(Words(buf[..], order));
    }
  }

  lemma FoldTwice(sum: nat)
    ensures var once := sum / 0x1_0000 + sum % 0x1_0000;
            Fold(sum) == once + once / 0x1_0000
  {
  }
}
