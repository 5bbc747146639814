/** The Internet checksum of src/util.rs (RFC 1071). */
module Checksum {
  import opened Words

  /** A 16-bit word as a little-endian machine reads two bytes. */
  function LeWord(lo: u8, hi: u8): u16 {
    lo + 0x100 * hi
  }

  function LeBytes(w: u16): (s: seq<u8>)
    ensures |s| == 2
  {
    [w % 0x100, w / 0x100]
  }

  /** The words of `data` added up, a last odd byte counting by itself. */
  function Total(data: seq<u8>): nat {
    if |data| == 0 then 0
    else if |data| == 1 then data[0]
    else LeWord(data[0], data[1]) + Total(data[2..])
  }

  /** Carries folded back in until 16 bits remain. */
  function Fold(n: nat): u16 {
    if n < 0x1_0000 then n else Fold(n % 0x1_0000 + n / 0x1_0000)
  }

  function Complement(w: u16): u16 {
    0xffff - w
  }

  /** Addition with end-around carry. */
  function OnesAdd(a: u16, b: u16): u16 {
    if a + b > 0xffff then a + b - 0xffff else a + b
  }

  /** The ones'-complement sum of the words. */
  function OnesSum(data: seq<u8>): u16 {
    if |data| == 0 then 0
    else if |data| == 1 then data[0]
    else OnesAdd(LeWord(data[0], data[1]), OnesSum(data[2..]))
  }

  /** The checksum as RFC 1071 defines it: the complement of the ones'-complement sum, from an initial value on. */
  function Cksum(data: seq<u8>, init: u16): u16 {
    Complement(OnesAdd(init, OnesSum(data)))
  }

  // ---------------------------------------------------------------- cksum16

  /** The accumulator is 32 bits wide and wraps. It cannot overflow on up to 131072 bytes with a 16-bit initial value,
      and then the result is the Internet checksum. */
  method Cksum16(data: seq<u8>, init: u32) returns (r: u16)
    ensures r == Complement(Fold(Wrap(init + Total(data))))
    ensures init <= 0xffff && |data| <= 131072 ==> init + Total(data) < M32 && r == Cksum(data, init)
  {
    var sum := AddWords(data, init);
    var folded := FoldCarries(sum);
    if init <= 0xffff && |data| <= 131072 {
      NoOverflow(data, init);
      WrapSmall(init + Total(data));
      CksumIsFolded(data, init);
    }
    return Complement(folded);
  }

  /** The adding loop of cksum16. */
  method AddWords(data: seq<u8>, init: u32) returns (sum: u32)
    ensures sum == Wrap(init + Total(data))
  {
    sum := init;
    var i := 0;
    assert data[0..] == data;
    while i + 1 < |data|
      invariant 0 <= i <= |data| && 0 <= sum < M32
      invariant Wrap(sum + Total(data[i..])) == Wrap(init + Total(data))
    {
      AddWordsRound(data, i, sum);
      sum := Add32(sum, LeWord(data[i], data[i + 1]));
      i := i + 2;
    }
    if i < |data| {
      AddWordsRound(data, i, sum);
      sum := Add32(sum, data[i]);
    }
    WrapSmall(sum);
  }

  lemma AddWordsRound(data: seq<u8>, i: nat, sum: u32)
    requires i < |data|
    ensures i + 1 < |data| ==>
      Wrap(sum + Total(data[i..])) == Wrap(Add32(sum, LeWord(data[i], data[i + 1])) + Total(data[i + 2..]))
    ensures i + 1 == |data| ==> Wrap(sum + Total(data[i..])) == Wrap(Add32(sum, data[i]))
  {
    if i + 1 < |data| {
      assert data[i..][2..] == data[i + 2..];
      WrapStep2(sum, LeWord(data[i], data[i + 1]), Total(data[i + 2..]));
    } else {
      WrapStep2(sum, data[i], 0);
    }
  }

  /** The folding loop of cksum16. */
  method FoldCarries(start: u32) returns (r: u16)
    ensures r == Fold(start)
  {
    var sum := start;
    while sum / 0x1_0000 != 0
      invariant 0 <= sum && Fold(sum) == Fold(start)
      decreases sum
    {
      sum := sum % 0x1_0000 + sum / 0x1_0000;
    }
    return sum;
  }

  lemma WrapSmall(n: nat)
    requires n < M32
    ensures Wrap(n) == n
  {
  }

  lemma WrapStep2(a: u32, b: u32, n: nat)
    ensures Wrap(a + b + n) == Wrap(Add32(a, b) + n)
  {
    WrapIsMod(a + b + n);
    WrapIsMod(Add32(a, b) + n);
  }

  /** Up to 131072 bytes, with a 16-bit initial value, the accumulator does not overflow. */
  lemma {:induction false} TotalBound(data: seq<u8>)
    ensures 2 * Total(data) <= 0xffff * (|data| + 1)
    ensures |data| % 2 == 0 ==> 2 * Total(data) <= 0xffff * |data|
  {
    if |data| > 1 {
      TotalBound(data[2..]);
    }
  }

  lemma NoOverflow(data: seq<u8>, init: nat)
    requires |data| <= 131072 && init <= 0xffff
    ensures init + Total(data) < M32
  {
    TotalBound(data);
  }

  // ---------------------------------------------------------------- ones'-complement addition

  lemma CarryResidue(n: nat)
    ensures (n % 0x1_0000 + n / 0x1_0000) % 0xffff == n % 0xffff
  {
    assert n == n % 0x1_0000 + n / 0x1_0000 + 0xffff * (n / 0x1_0000);
  }

  /** Folding keeps the residue modulo 2^16 - 1, and yields zero only for zero. */
  lemma {:induction false} FoldResidue(n: nat)
    ensures Fold(n) % 0xffff == n % 0xffff && (Fold(n) == 0 <==> n == 0)
  {
    if n >= 0x1_0000 {
      var m := n % 0x1_0000 + n / 0x1_0000;
      FoldResidue(m);
      CarryResidue(n);
    }
  }

  /** These two facts pin the folded value down. */
  lemma {:induction false} FoldUnique(n: nat, w: u16)
    requires w % 0xffff == n % 0xffff && (w == 0 <==> n == 0)
    ensures Fold(n) == w
  {
    FoldResidue(n);
  }

  /** Residues add. */
  lemma ResidueAdd(a: nat, b: nat, x: nat)
    requires a % 0xffff == b % 0xffff
    ensures (a + x) % 0xffff == (b + x) % 0xffff
  {
    var q := a / 0xffff - b / 0xffff;
    assert a + x == (b + x) + 0xffff * q;
  }

  /** Partial sums may be folded early. */
  lemma {:induction false} FoldEarly(a: nat, b: nat)
    ensures Fold(Fold(a) + b) == Fold(a + b)
  {
    FoldResidue(a);
    ResidueAdd(Fold(a), a, b);
    FoldResidue(Fold(a) + b);
    FoldUnique(a + b, Fold(Fold(a) + b));
  }

  lemma {:induction false} OnesAddIsFold(a: u16, b: u16)
    ensures OnesAdd(a, b) == Fold(a + b)
  {
    FoldUnique(a + b, OnesAdd(a, b));
  }

  lemma {:induction false} OnesSumIsFold(data: seq<u8>)
    ensures OnesSum(data) == Fold(Total(data))
  {
    if |data| > 1 {
      OnesSumIsFold(data[2..]);
      var w := LeWord(data[0], data[1]);
      OnesAddIsFold(w, OnesSum(data[2..]));
      FoldEarly(Total(data[2..]), w);
    }
  }

  /** Adding everything up first and folding the carries in afterwards is ones'-complement addition. */
  lemma {:induction false} CksumIsFolded(data: seq<u8>, init: u16)
    ensures Cksum(data, init) == Complement(Fold(init + Total(data)))
  {
    OnesSumIsFold(data);
    OnesAddIsFold(init, OnesSum(data));
    FoldEarly(Total(data), init);
  }

  // ---------------------------------------------------------------- algebra

  /** Totals add up if the first part has an even length. */
  lemma {:induction false} TotalSplit(a: seq<u8>, b: seq<u8>)
    requires |a| % 2 == 0
    ensures Total(a + b) == Total(a) + Total(b)
  {
    if a == [] {
      assert a + b == b;
    } else {
      assert (a + b)[2..] == a[2..] + b;
      TotalSplit(a[2..], b);
    }
  }

  lemma {:induction false} CksumFromFold(b: seq<u8>, n: nat)
    ensures Cksum(b, Fold(n)) == Complement(Fold(n + Total(b)))
  {
    CksumIsFolded(b, Fold(n));
    FoldEarly(n, Total(b));
  }

  lemma {:induction false} ChainsInto(a: seq<u8>, b: seq<u8>, whole: seq<u8>, init: u16)
    requires Total(whole) == Total(a) + Total(b)
    ensures Cksum(b, Complement(Cksum(a, init))) == Cksum(whole, init)
  {
    CksumIsFolded(a, init);
    CksumFromFold(b, init + Total(a));
    CksumIsFolded(whole, init);
  }

  /** Chaining through the inverted partial sum is the checksum of the concatenation. */
  lemma {:induction false} CksumChains(a: seq<u8>, b: seq<u8>, init: u16)
    requires |a| % 2 == 0
    ensures Cksum(b, Complement(Cksum(a, init))) == Cksum(a + b, init)
  {
    TotalSplit(a, b);
    ChainsInto(a, b, a + b, init);
  }

  /** A buffer with a 16-bit field between `a` and `b`. */
  function WithField(a: seq<u8>, w: u16, b: seq<u8>): (s: seq<u8>)
    ensures |s| == |a| + 2 + |b|
  {
    a + LeBytes(w) + b
  }

  /** What surrounds the field. */
  lemma FieldParts(a: seq<u8>, w: u16, b: seq<u8>)
    ensures a <= WithField(a, w, b) && WithField(a, w, b)[|a| + 2..] == b
  {
  }

  /** Writing the field. */
  lemma FieldWritten(a: seq<u8>, b: seq<u8>, was: seq<u8>, w: u16, now: seq<u8>)
    requires was == WithField(a, 0, b) && |now| == |was|
    requires forall i :: 0 <= i < |now| ==> now[i] == if |a| <= i < |a| + 2 then LeBytes(w)[i - |a|] else was[i]
    ensures now == WithField(a, w, b)
  {
    forall i | 0 <= i < |now|
      ensures now[i] == WithField(a, w, b)[i]
    {
    }
  }

  lemma {:induction false} TotalWithField(a: seq<u8>, w: u16, b: seq<u8>)
    requires |a| % 2 == 0
    ensures Total(WithField(a, w, b)) == Total(a) + w + Total(b)
  {
    TotalThree(a, LeBytes(w), b);
    TotalLe(w);
  }

  lemma {:induction false} TotalThree(a: seq<u8>, m: seq<u8>, b: seq<u8>)
    requires |a| % 2 == 0 && |m| % 2 == 0
    ensures Total(a + m + b) == Total(a) + Total(m) + Total(b)
  {
    TotalSplit(a, m);
    TotalSplit(a + m, b);
  }

  lemma TotalLe(w: u16)
    ensures Total(LeBytes(w)) == w
  {
    assert LeBytes(w)[2..] == [];
  }

  /** A sum that verifies: a positive multiple of 2^16 - 1. */
  predicate Closes(n: nat) {
    n > 0 && n % 0xffff == 0
  }

  lemma {:induction false} ZeroIff(data: seq<u8>, init: u16)
    ensures Cksum(data, init) == 0 <==> Closes(init + Total(data))
  {
    AllOnesIff(init + Total(data));
    CksumIsFolded(data, init);
  }

  lemma {:induction false} AllOnesIff(n: nat)
    ensures Fold(n) == 0xffff <==> Closes(n)
  {
    FoldResidue(n);
  }

  /** A sum and its complement fold to all ones. */
  lemma {:induction false} ComplementCloses(n: nat)
    ensures Fold(n + Complement(Fold(n))) == 0xffff
  {
    FoldResidue(n);
    ResidueAdd(n, Fold(n), Complement(Fold(n)));
    FoldUnique(n + Complement(Fold(n)), 0xffff);
  }

  lemma {:induction false} AllOnesCloses(n: nat)
    requires Fold(n) == 0xffff
    ensures Fold(n + 0xffff) == 0xffff
  {
    FoldResidue(n);
    ResidueAdd(n, Fold(n), 0xffff);
    FoldUnique(n + 0xffff, 0xffff);
  }

  lemma {:induction false} FilledSum(n: nat, w: u16)
    requires w == Complement(Fold(n)) || (w == 0xffff && Fold(n) == 0xffff)
    ensures Fold(n + w) == 0xffff
  {
    ComplementCloses(n);
    if w == 0xffff && Fold(n) == 0xffff {
      AllOnesCloses(n);
    }
  }

  /** A buffer that adds its checksum, or all ones for a checksum of zero, to another one's total. */
  lemma {:induction false} FilledBy(zeroed: seq<u8>, filled: seq<u8>, init: u16, w: u16)
    requires Total(filled) == Total(zeroed) + w
    requires w == Cksum(zeroed, init) || (w == 0xffff && Cksum(zeroed, init) == 0)
    ensures Cksum(filled, init) == 0
  {
    CksumIsFolded(zeroed, init);
    CksumIsFolded(filled, init);
    FilledSum(init + Total(zeroed), w);
  }

  /** Filling a zeroed field at an even offset with the checksum makes verification return zero. Writing 0xffff for a
      checksum of zero, as UDP does, makes no difference. */
  lemma {:induction false} FilledFieldVerifies(a: seq<u8>, b: seq<u8>, init: u16, w: u16)
    requires |a| % 2 == 0
    requires w == Cksum(WithField(a, 0, b), init) || (w == 0xffff && Cksum(WithField(a, 0, b), init) == 0)
    ensures Cksum(WithField(a, w, b), init) == 0
  {
    TotalWithField(a, 0, b);
    TotalWithField(a, w, b);
    FilledBy(WithField(a, 0, b), WithField(a, w, b), init, w);
  }

  /** What the checksum detects: a verified buffer with one aligned word changed verifies again exactly if the word did
      not change or went from one zero of ones'-complement arithmetic to the other, in a buffer that is not all zero. */
  lemma {:induction false} ChangedWordVerifiesIff(a: seq<u8>, b: seq<u8>, init: u16, w: u16, v: u16)
    requires |a| % 2 == 0 && Cksum(WithField(a, w, b), init) == 0
    ensures Cksum(WithField(a, v, b), init) == 0
      <==> v == w || (v in {0, 0xffff} && w in {0, 0xffff} && init + Total(a) + Total(b) > 0)
  {
    FieldZeroIff(a, w, b, init);
    FieldZeroIff(a, v, b, init);
    ChangeCloses(init + Total(a) + Total(b), w, v);
  }

  lemma {:induction false} FieldZeroIff(a: seq<u8>, w: u16, b: seq<u8>, init: u16)
    requires |a| % 2 == 0
    ensures Cksum(WithField(a, w, b), init) == 0 <==> Closes(init + Total(a) + Total(b) + w)
  {
    TotalWithField(a, w, b);
    ZeroIff(WithField(a, w, b), init);
  }

  lemma ChangeCloses(n: nat, w: u16, v: u16)
    requires Closes(n + w)
    ensures Closes(n + v) <==> v == w || (v in {0, 0xffff} && w in {0, 0xffff} && n > 0)
  {
    var q := (n + w) / 0xffff;
    assert n + w == 0xffff * q;
    assert n + v == 0xffff * q + (v - w);
    if Closes(n + v) {
      var k := (n + v) / 0xffff;
      assert v - w == 0xffff * (k - q);
      assert k - q == 0 || k - q == 1 || k - q == -1;
    }
  }

  /** A buffer whose checksum field between `a` and `b` is filled. */
  function Sealed(a: seq<u8>, b: seq<u8>, init: u16): seq<u8> {
    WithField(a, Cksum(WithField(a, 0, b), init), b)
  }

  lemma SealedVerifies(a: seq<u8>, b: seq<u8>, init: u16)
    requires |a| % 2 == 0
    ensures Cksum(Sealed(a, b, init), init) == 0
  {
    FilledFieldVerifies(a, b, init, Cksum(WithField(a, 0, b), init));
  }
}
