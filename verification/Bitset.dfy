/** Sets of operation ids packed into 64-bit words (src/porcupine/bitset.go).

Bits 0-63 live in word 0, the next 64 in word 1, and so on.  A packed set is a
fixed-length word array that Set and Clear update in place; `Members` is the
plain set of ids it stands for.
 */
module Bitset {

  // ----- one word: an unsigned 64-bit number, taken by its binary digits

  function Pow2(k: nat): nat {
    if k == 0 then 1 else 2 * Pow2(k - 1)
  }

  const WIDTH: nat := 64

  type Word = w: nat | w < 0x1_0000_0000_0000_0000

  /** w & (1 << m) != 0 */
  predicate Bit(w: nat, m: nat) {
    if m == 0 then w % 2 == 1 else Bit(w / 2, m - 1)
  }

  /** w | (1 << m) */
  function SetBit(w: nat, m: nat): nat {
    if m == 0 then w - w % 2 + 1 else 2 * SetBit(w / 2, m - 1) + w % 2
  }

  /** w &^ (1 << m) */
  function ClearBit(w: nat, m: nat): nat {
    if m == 0 then w - w % 2 else 2 * ClearBit(w / 2, m - 1) + w % 2
  }

  /** The exclusive or of the k lowest digits. */
  function Xor(w: nat, v: nat, k: nat): nat {
    if k == 0 then 0 else 2 * Xor(w / 2, v / 2, k - 1) + (w % 2 + v % 2) % 2
  }

  /** How many of the k lowest digits are ones. */
  function Ones(w: nat, k: nat): nat {
    if k == 0 then 0 else Ones(w / 2, k - 1) + w % 2
  }

  lemma Pow2Width()
    ensures Pow2(WIDTH) == 0x1_0000_0000_0000_0000
  {
    assert Pow2(8) == 0x100;
    assert Pow2(16) == 0x1_0000;
    assert Pow2(24) == 0x100_0000;
    assert Pow2(32) == 0x1_0000_0000;
    assert Pow2(40) == 0x100_0000_0000;
    assert Pow2(48) == 0x1_0000_0000_0000;
    assert Pow2(56) == 0x100_0000_0000_0000;
  }

  lemma {:induction false} SetBitBits(w: nat, m: nat, p: nat)
    ensures Bit(SetBit(w, m), p) <==> p == m || Bit(w, p)
  {
    if m > 0 && p > 0 {
      SetBitBits(w / 2, m - 1, p - 1);
    }
  }

  lemma {:induction false} ClearBitBits(w: nat, m: nat, p: nat)
    ensures Bit(ClearBit(w, m), p) <==> p != m && Bit(w, p)
  {
    if m > 0 && p > 0 {
      ClearBitBits(w / 2, m - 1, p - 1);
    }
  }

  /** No operation leaves the machine word. */
  lemma {:induction false} StaysBelow(w: nat, v: nat, m: nat, k: nat)
    requires w < Pow2(k)
    ensures m < k ==> SetBit(w, m) < Pow2(k) && ClearBit(w, m) < Pow2(k)
    ensures Xor(w, v, k) < Pow2(k)
  {
    if k > 0 {
      StaysBelow(w / 2, v / 2, if m == 0 then 0 else m - 1, k - 1);
    }
  }

  lemma StaysAWord(w: Word, v: Word, m: nat)
    ensures m < WIDTH ==> SetBit(w, m) < 0x1_0000_0000_0000_0000 && ClearBit(w, m) < 0x1_0000_0000_0000_0000
    ensures Xor(w, v, WIDTH) < 0x1_0000_0000_0000_0000
  {
    Pow2Width();
    StaysBelow(w, v, m, WIDTH);
  }

  lemma {:induction false} NumberIsItsBits(w: nat, v: nat, k: nat)
    requires w < Pow2(k) && v < Pow2(k)
    requires forall m: nat :: m < k ==> (Bit(w, m) <==> Bit(v, m))
    ensures w == v
  {
    if k > 0 {
      assert Bit(w, 0) <==> Bit(v, 0);
      forall m: nat | m < k - 1
        ensures Bit(w / 2, m) <==> Bit(v / 2, m)
      {
        assert Bit(w, m + 1) <==> Bit(v, m + 1);
      }
      NumberIsItsBits(w / 2, v / 2, k - 1);
    }
  }

  lemma WordIsItsBits(w: Word, v: Word)
    requires forall m: nat :: m < WIDTH ==> (Bit(w, m) <==> Bit(v, m))
    ensures w == v
  {
    Pow2Width();
    NumberIsItsBits(w, v, WIDTH);
  }

  lemma {:induction false} ZeroHasNoBits(m: nat)
    ensures !Bit(0, m)
  {
    if m > 0 {
      ZeroHasNoBits(m - 1);
    }
  }

  // ----- word sequences

  /** bitsetIndex: which word a position lives in, and where in that word. */
  function Index(pos: nat): (nat, nat) {
    (pos / 64, pos % 64)
  }

  predicate Get(words: seq<Word>, pos: nat)
    requires pos < 64 * |words|
  {
    var (major, minor) := Index(pos);
    Bit(words[major], minor)
  }

  /** The set of ids that a word sequence stands for. */
  ghost function Members(words: seq<Word>): set<nat> {
    set p: nat | p < 64 * |words| && Get(words, p)
  }

  /** Word-by-word equality is equality of the sets. */
  lemma MembersInjective(a: seq<Word>, b: seq<Word>)
    requires |a| == |b|
    ensures Members(a) == Members(b) <==> a == b
  {
    if Members(a) == Members(b) {
      forall i: nat | i < |a|
        ensures a[i] == b[i]
      {
        forall m: nat | m < WIDTH
          ensures Bit(a[i], m) <==> Bit(b[i], m)
        {
          var p := 64 * i + m;
          assert Index(p) == (i, m);
          assert Get(a, p) <==> p in Members(a);
          assert Get(b, p) <==> p in Members(b);
        }
        WordIsItsBits(a[i], b[i]);
      }
    }
  }

  lemma MembersAfter(before: seq<Word>, after: seq<Word>, pos: nat, on: bool)
    requires pos < 64 * |before|
    requires |after| == |before|
    requires forall i :: 0 <= i < |before| && i != pos / 64 ==> after[i] == before[i]
    requires after[pos / 64] ==
             if on then SetBit(before[pos / 64], pos % 64) else ClearBit(before[pos / 64], pos % 64)
    ensures Members(after) == if on then Members(before) + {pos} else Members(before) - {pos}
  {
    forall p: nat | p < 64 * |before|
      ensures Get(after, p) <==> if p == pos then on else Get(before, p)
    {
      SetBitBits(before[pos / 64], pos % 64, p % 64);
      ClearBitBits(before[pos / 64], pos % 64, p % 64);
    }
  }

  lemma MembersOfZeros(words: seq<Word>)
    requires forall i :: 0 <= i < |words| ==> words[i] == 0
    ensures Members(words) == {}
  {
    forall p: nat | p < 64 * |words|
      ensures !Get(words, p)
    {
      ZeroHasNoBits(p % 64);
    }
  }

  // ----- the operations on word arrays

  method New(bits: nat) returns (b: array<Word>)
    ensures fresh(b) && bits <= 64 * b.Length
    ensures Members(b[..]) == {}
  {
    var extra := 0;
    if bits % 64 != 0 {
      extra := 1;
    }
    b := new Word[bits / 64 + extra](_ => 0);
    MembersOfZeros(b[..]);
  }

  method Clone(b: array<Word>) returns (c: array<Word>)
    ensures fresh(c) && c[..] == b[..]
  {
    c := new Word[b.Length](i requires 0 <= i < b.Length reads b => b[i]);
  }

  method Set(b: array<Word>, pos: nat)
    requires pos < 64 * b.Length
    modifies b
    ensures Members(b[..]) == old(Members(b[..])) + {pos}
  {
    var (major, minor) := Index(pos);
    StaysAWord(b[major], 0, minor);
    b[major] := SetBit(b[major], minor);
    MembersAfter(old(b[..]), b[..], pos, true);
  }

  method Clear(b: array<Word>, pos: nat)
    requires pos < 64 * b.Length
    modifies b
    ensures Members(b[..]) == old(Members(b[..])) - {pos}
  {
    var (major, minor) := Index(pos);
    StaysAWord(b[major], 0, minor);
    b[major] := ClearBit(b[major], minor);
    MembersAfter(old(b[..]), b[..], pos, false);
  }

  // ----- the hash that picks a cache bucket

  function Popcnt(words: seq<Word>): nat {
    if words == [] then 0 else Popcnt(words[..|words| - 1]) + Ones(words[|words| - 1], WIDTH)
  }

  function XorAll(start: Word, words: seq<Word>): Word {
    if words == [] then start
    else
      var w := XorAll(start, words[..|words| - 1]);
      StaysAWord(w, words[|words| - 1], 0);
      Xor(w, words[|words| - 1], WIDTH)
  }

  /** The count of members, as an unsigned 64-bit number, mixed with every word. */
  function HashOf(words: seq<Word>): Word {
    XorAll(Popcnt(words) % 0x1_0000_0000_0000_0000, words)
  }

  ghost predicate IsPlace(w: nat, base: nat, p: nat) {
    base <= p && Bit(w, p - base)
  }

  ghost function Places(w: nat, base: nat, k: nat): set<nat> {
    set p: nat | p < base + k && IsPlace(w, base, p)
  }

  lemma {:induction false} OnesArePlaces(w: nat, base: nat, k: nat)
    ensures |Places(w, base, k)| == Ones(w, k)
    decreases k
  {
    if k > 0 {
      OnesArePlaces(w / 2, base + 1, k - 1);
      var rest := Places(w / 2, base + 1, k - 1);
      forall p: nat
        ensures p in Places(w, base, k) <==> p in rest || (p == base && w % 2 == 1)
      {}
      assert Places(w, base, k) == if w % 2 == 1 then rest + {base} else rest;
    } else {
      assert Places(w, base, k) == {};
    }
  }

  /** popcnt is the number of members. */
  lemma {:induction false} PopcntIsSize(words: seq<Word>)
    ensures Popcnt(words) == |Members(words)|
    decreases |words|
  {
    if words == [] {
      assert Members(words) == {};
    } else {
      var n := |words| - 1;
      var init, last := Members(words[..n]), Places(words[n], 64 * n, WIDTH);
      PopcntIsSize(words[..n]);
      OnesArePlaces(words[n], 64 * n, WIDTH);
      forall p: nat
        ensures p in Members(words) <==> p in init || p in last
      {
        assert p < 64 * n ==> words[..n][p / 64] == words[p / 64];
      }
      assert Members(words) == init + last && init !! last;
    }
  }

  lemma {:induction false} XorBits(w: nat, v: nat, k: nat, m: nat)
    requires m < k
    ensures Bit(Xor(w, v, k), m) <==> Bit(w, m) != Bit(v, m)
  {
    if m > 0 {
      XorBits(w / 2, v / 2, k - 1, m - 1);
    }
  }

  /** The words that have a digit. */
  ghost function Having(words: seq<Word>, m: nat): set<nat> {
    set i: nat | i < |words| && Bit(words[i], m)
  }

  predicate IsOdd(n: nat) {
    n % 2 == 1
  }

  lemma {:induction false} XorAllBits(start: Word, words: seq<Word>, m: nat)
    requires m < WIDTH
    ensures Bit(XorAll(start, words), m) <==> Bit(start, m) != IsOdd(|Having(words, m)|)
    decreases |words|
  {
    hide Bit, Xor;
    if words == [] {
      assert Having(words, m) == {};
    } else {
      var n := |words| - 1;
      XorAllBits(start, words[..n], m);
      XorBits(XorAll(start, words[..n]), words[n], WIDTH, m);
      var init := Having(words[..n], m);
      assert Having(words, m) == if Bit(words[n], m) then init + {n} else init;
    }
  }

  /** Each digit of the hash is that of the number of members, flipped once for every word that has it. */
  lemma HashMixesAll(words: seq<Word>, m: nat)
    requires m < WIDTH
    ensures Bit(HashOf(words), m) <==>
            Bit(|Members(words)| % 0x1_0000_0000_0000_0000, m) != IsOdd(|Having(words, m)|)
  {
    PopcntIsSize(words);
    XorAllBits(Popcnt(words) % 0x1_0000_0000_0000_0000, words, m);
  }

  method PopcntOf(b: array<Word>) returns (total: nat)
    ensures total == Popcnt(b[..])
  {
    total := 0;
    for i := 0 to b.Length
      invariant total == Popcnt(b[..i])
    {
      total := total + Ones(b[i], WIDTH);
      assert b[..i + 1][..i] == b[..i];
    }
    assert b[..b.Length] == b[..];
  }

  method Hash(b: array<Word>) returns (hash: Word)
    ensures hash == HashOf(b[..])
  {
    var total := PopcntOf(b);
    hash := total % 0x1_0000_0000_0000_0000;
    ghost var start := hash;
    for i := 0 to b.Length
      invariant hash == XorAll(start, b[..i])
    {
      StaysAWord(hash, b[i], 0);
      hash := Xor(hash, b[i], WIDTH);
      assert b[..i + 1][..i] == b[..i];
    }
    assert b[..b.Length] == b[..];
  }

  /** Equal answers exactly when the two packed sets have the same members. */
  method Equal(b: array<Word>, c: array<Word>) returns (same: bool)
    ensures same <==> b[..] == c[..]
    ensures b.Length == c.Length ==> (same <==> Members(b[..]) == Members(c[..]))
  {
    if b.Length != c.Length {
      return false;
    }
    MembersInjective(b[..], c[..]);
    for i := 0 to b.Length
      invariant b[..i] == c[..i]
    {
      if b[i] != c[i] {
        assert b[..] != c[..] by { assert b[..][i] != c[..][i]; }
        return false;
      }
    }
    assert b[..b.Length] == b[..] && c[..c.Length] == c[..];
    return true;
  }
}
