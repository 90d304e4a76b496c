/** The local-VLAN allocator of utils.py (`LocalVLanBitmap`): the closed id
    range [min, max] packed 31 ids to a word, id `n` living in word `n / 31`
    at bit `31 - n % 31`. The class refines the abstract set of marked ids
    given by `Marked()`. */
module Bitmap {
  import opened Text

  /** `get_array(num)`: the word that holds id `num`. */
  function WordIndex(num: nat): nat {
    num / 31
  }

  /** `get_bit_location(num)`. */
  function BitLocation(num: nat): nat {
    num % 31
  }

  /** The shift applied to 1 for id `num`: always one of 1..31, so every id
      fits a 32-bit word and bit 0 is never used. */
  function Shift(num: nat): (s: nat)
    ensures 1 <= s <= 31
  {
    31 - BitLocation(num)
  }

  /** `k` as a bit-vector shift amount, built by counting up from zero. */
  function ShiftBv(k: nat): bv32
    requires k <= 31
    decreases k
  {
    if k == 0 then 0 else ShiftBv(k - 1) + 1
  }

  lemma {:induction false} ShiftBvExact(k: nat)
    requires k <= 31
    ensures ShiftBv(k) as int == k
    decreases k
  {
    if k > 0 {
      ShiftBvExact(k - 1);
    }
  }

  /** The shift of id `num` as a bit-vector amount. */
  function Amount(num: nat): (s: bv32)
    ensures 1 <= s <= 31
  {
    ShiftBvExact(Shift(num));
    ShiftBv(Shift(num))
  }

  /** Two ids share a shift exactly when they share a bit location. */
  lemma AmountInjective(a: nat, b: nat)
    ensures Amount(a) == Amount(b) <==> BitLocation(a) == BitLocation(b)
  {
    ShiftBvExact(Shift(a));
    ShiftBvExact(Shift(b));
  }

  /** The single-bit word `1 << s`. */
  function Bit(s: bv32): bv32
    requires s <= 31
  {
    (1 as bv32) << s
  }

  /** `elem | (1 << s)`, the update of `add_bits`. */
  function SetBit(w: bv32, s: bv32): bv32
    requires s <= 31
  {
    w | Bit(s)
  }

  /** `elem & ~(1 << s)`, the update of `delete_bits`. */
  function ClearBit(w: bv32, s: bv32): bv32
    requires s <= 31
  {
    w & !Bit(s)
  }

  /** The test of `_bit_on`: `w & (1 << s)` is non-zero. */
  predicate Has(w: bv32, s: bv32)
    requires s <= 31
  {
    w & Bit(s) != 0
  }

  lemma SetBitSame(w: bv32, s: bv32)
    requires s <= 31
    ensures Has(SetBit(w, s), s)
  {
  }

  lemma SetBitOther(w: bv32, s1: bv32, s2: bv32)
    requires s1 <= 31 && s2 <= 31 && s1 != s2
    ensures SetBit(w, s1) & Bit(s2) == w & Bit(s2)
  {
  }

  lemma ClearBitSame(w: bv32, s: bv32)
    requires s <= 31
    ensures !Has(ClearBit(w, s), s)
  {
  }

  lemma ClearBitOther(w: bv32, s1: bv32, s2: bv32)
    requires s1 <= 31 && s2 <= 31 && s1 != s2
    ensures ClearBit(w, s1) & Bit(s2) == w & Bit(s2)
  {
  }

  /** Setting bit `s1` turns it on and leaves every other bit as it was. */
  lemma HasSetBit(w: bv32, s1: bv32, s2: bv32)
    requires s1 <= 31 && s2 <= 31
    ensures Has(SetBit(w, s1), s2) <==> Has(w, s2) || s1 == s2
  {
    if s1 == s2 {
      SetBitSame(w, s1);
    } else {
      SetBitOther(w, s1, s2);
    }
  }

  /** Clearing bit `s1` turns it off and leaves every other bit as it was. */
  lemma HasClearBit(w: bv32, s1: bv32, s2: bv32)
    requires s1 <= 31 && s2 <= 31
    ensures Has(ClearBit(w, s1), s2) <==> Has(w, s2) && s1 != s2
  {
    if s1 == s2 {
      ClearBitSame(w, s1);
    } else {
      ClearBitOther(w, s1, s2);
    }
  }

  /** The word count the source computes, `get_array(max, True)`. */
  function WordCountAsWritten(max: nat): nat {
    (max + 31 - 1) / 31
  }

  /** The word count that covers every id up to `max`. */
  function WordCount(max: nat): (n: nat)
    ensures n >= 1
  {
    max / 31 + 1
  }

  /** Distinct ids occupy distinct (word, bit) locations. */
  lemma LocationInjective(a: nat, b: nat)
    requires WordIndex(a) == WordIndex(b) && BitLocation(a) == BitLocation(b)
    ensures a == b
  {
  }

  /** Every id in [0, max] falls inside a `WordCount(max)`-word array. */
  lemma IdsInRange(max: nat, n: nat)
    requires n <= max
    ensures WordIndex(n) < WordCount(max)
  {
  }

  /** When `max % 31 != 0`, as for 4000 and 4094, the two word counts agree:
      the source's array is exactly large enough. */
  lemma WordCountAgrees(max: nat)
    requires max % 31 != 0
    ensures WordCount(max) == WordCountAsWritten(max)
  {
  }

  /** As written, a range whose `max` is a multiple of 31 puts id `max` one
      word past the end of the array (an IndexError in `add_bits(max)` and in
      `get_unused_bits` once [min, max - 1] is used up). */
  lemma AsWrittenMaxOutOfRange(max: nat)
    requires max > 0 && max % 31 == 0
    ensures WordIndex(max) >= WordCountAsWritten(max)
    ensures WordIndex(max) < WordCount(max)
  {
  }

  /** The smallest id of [lo, hi] not in `marked`, if any: what
      `get_unused_bits` hands out. */
  function FirstFree(marked: set<nat>, lo: nat, hi: nat): Option<nat>
    decreases hi + 1 - lo
  {
    if lo > hi then None
    else if lo !in marked then Some(lo)
    else FirstFree(marked, lo + 1, hi)
  }

  /** `FirstFree` returns an unmarked id of the range below which every id is marked. */
  lemma {:induction false} FirstFreeIsSmallest(marked: set<nat>, lo: nat, hi: nat)
    ensures var r := FirstFree(marked, lo, hi);
      r.Some? ==> lo <= r.value <= hi && r.value !in marked &&
                  forall k :: lo <= k < r.value ==> k in marked
    decreases hi + 1 - lo
  {
    if lo <= hi && lo in marked {
      FirstFreeIsSmallest(marked, lo + 1, hi);
    }
  }

  /** `FirstFree` signals exhaustion exactly when every id of the range is marked. */
  lemma {:induction false} FirstFreeNoneIffFull(marked: set<nat>, lo: nat, hi: nat)
    ensures FirstFree(marked, lo, hi).None? <==> forall k :: lo <= k <= hi ==> k in marked
    decreases hi + 1 - lo
  {
    if lo <= hi && lo in marked {
      FirstFreeNoneIffFull(marked, lo + 1, hi);
    }
  }

  /** Marks outside [lo, hi] do not change what `FirstFree` returns. */
  lemma {:induction false} FirstFreeOnlyRange(m1: set<nat>, m2: set<nat>, lo: nat, hi: nat)
    requires forall k :: lo <= k <= hi ==> (k in m1 <==> k in m2)
    ensures FirstFree(m1, lo, hi) == FirstFree(m2, lo, hi)
    decreases hi + 1 - lo
  {
    if lo <= hi && lo in m1 {
      FirstFreeOnlyRange(m1, m2, lo + 1, hi);
    }
  }

  /** Id `n` has its bit on in the word sequence `ws`. */
  predicate IsOn(ws: seq<bv32>, n: nat) {
    WordIndex(n) < |ws| && Has(ws[WordIndex(n)], Amount(n))
  }

  /** The ids whose bit is on in a word sequence. */
  ghost function MarkedOf(ws: seq<bv32>): set<nat>
  {
    set n: nat | n < 31 * |ws| && IsOn(ws, n)
  }

  lemma WordIndexBound(n: nat, len: nat)
    ensures WordIndex(n) < len <==> n < 31 * len
  {
    assert n == 31 * WordIndex(n) + BitLocation(n);
  }

  lemma MarkedOfIsOn(ws: seq<bv32>, n: nat)
    ensures n in MarkedOf(ws) <==> IsOn(ws, n)
  {
    WordIndexBound(n, |ws|);
  }

  /** Setting the bit of `num` in its word turns on `num` and no other id. */
  lemma SetBitAt(ws: seq<bv32>, num: nat, n: nat)
    requires WordIndex(num) < |ws|
    ensures IsOn(ws[WordIndex(num) := SetBit(ws[WordIndex(num)], Amount(num))], n) <==> IsOn(ws, n) || n == num
  {
    var i := WordIndex(num);
    if WordIndex(n) == i {
      HasSetBit(ws[i], Amount(num), Amount(n));
      AmountInjective(num, n);
      if BitLocation(n) == BitLocation(num) {
        LocationInjective(n, num);
      }
    }
  }

  /** Clearing the bit of `num` in its word turns off `num` and no other id. */
  lemma ClearBitAt(ws: seq<bv32>, num: nat, n: nat)
    requires WordIndex(num) < |ws|
    ensures IsOn(ws[WordIndex(num) := ClearBit(ws[WordIndex(num)], Amount(num))], n) <==> IsOn(ws, n) && n != num
  {
    var i := WordIndex(num);
    if WordIndex(n) == i {
      HasClearBit(ws[i], Amount(num), Amount(n));
      AmountInjective(num, n);
      if BitLocation(n) == BitLocation(num) {
        LocationInjective(n, num);
      }
    }
  }

  /** Setting the bit of `num` adds exactly `num` to the marked ids. */
  lemma MarkedOfSet(ws: seq<bv32>, num: nat)
    requires WordIndex(num) < |ws|
    ensures MarkedOf(ws[WordIndex(num) := SetBit(ws[WordIndex(num)], Amount(num))]) == MarkedOf(ws) + {num}
  {
    var ws' := ws[WordIndex(num) := SetBit(ws[WordIndex(num)], Amount(num))];
    forall n: nat
      ensures n in MarkedOf(ws') <==> n in MarkedOf(ws) + {num}
    {
      MarkedOfIsOn(ws, n);
      MarkedOfIsOn(ws', n);
      SetBitAt(ws, num, n);
    }
  }

  /** Clearing the bit of `num` removes exactly `num` from the marked ids. */
  lemma MarkedOfClear(ws: seq<bv32>, num: nat)
    requires WordIndex(num) < |ws|
    ensures MarkedOf(ws[WordIndex(num) := ClearBit(ws[WordIndex(num)], Amount(num))]) == MarkedOf(ws) - {num}
  {
    var ws' := ws[WordIndex(num) := ClearBit(ws[WordIndex(num)], Amount(num))];
    forall n: nat
      ensures n in MarkedOf(ws') <==> n in MarkedOf(ws) - {num}
    {
      MarkedOfIsOn(ws, n);
      MarkedOfIsOn(ws', n);
      ClearBitAt(ws, num, n);
    }
  }

  /** An all-zero word sequence marks nothing. */
  lemma MarkedOfZero(ws: seq<bv32>)
    requires forall i :: 0 <= i < |ws| ==> ws[i] == 0
    ensures MarkedOf(ws) == {}
  {
    forall n: nat | n in MarkedOf(ws)
      ensures false
    {
      MarkedOfIsOn(ws, n);
    }
  }

  class LocalVlanBitmap {
    const min: nat
    const max: nat
    const words: array<bv32>

    ghost predicate Valid()
    {
      words.Length == WordCount(max)
    }

    /** The abstract value: the ids whose bit is on. */
    ghost function Marked(): set<nat>
      reads this, words
    {
      MarkedOf(words[..])
    }

    /** `_bit_on(bits)`: whether id `num` is in use. */
    method BitOn(num: nat) returns (on: bool)
      requires WordIndex(num) < words.Length
      ensures on <==> num in Marked()
    {
      on := Has(words[WordIndex(num)], Amount(num));
      MarkedOfIsOn(words[..], num);
    }

    /** `__init__(min, max)`: a zeroed array with nothing marked. */
    constructor(min: nat, max: nat)
      ensures Valid() && fresh(words)
      ensures this.min == min && this.max == max
      ensures Marked() == {}
    {
      this.min, this.max := min, max;
      words := new bv32[WordCount(max)](_ => 0);
      new;
      MarkedOfZero(words[..]);
    }

    /** `add_bits(num)`; out of range it is the source's IndexError (`ok` false). */
    method AddBits(num: nat) returns (ok: bool)
      requires Valid()
      modifies words
      ensures Valid()
      ensures ok == (WordIndex(num) < words.Length)
      ensures ok ==> Marked() == old(Marked()) + {num}
      ensures !ok ==> unchanged(words)
    {
      var i := WordIndex(num);
      if i >= words.Length {
        return false;
      }
      MarkedOfSet(words[..], num);
      words[i] := SetBit(words[i], Amount(num));
      ok := true;
    }

    /** `delete_bits(num)`; out of range it is the source's IndexError (`ok` false). */
    method DeleteBits(num: nat) returns (ok: bool)
      requires Valid()
      modifies words
      ensures Valid()
      ensures ok == (WordIndex(num) < words.Length)
      ensures ok ==> Marked() == old(Marked()) - {num}
      ensures !ok ==> unchanged(words)
    {
      var i := WordIndex(num);
      if i >= words.Length {
        return false;
      }
      MarkedOfClear(words[..], num);
      words[i] := ClearBit(words[i], Amount(num));
      ok := true;
    }

    /** `get_unused_bits()`: the smallest free id of [min, max], marked in
        the same step; None, with nothing changed, when the range is full. */
    method GetUnusedBits() returns (r: Option<nat>)
      requires Valid()
      modifies words
      ensures Valid()
      ensures r == FirstFree(old(Marked()), min, max)
      ensures r.Some? ==> Marked() == old(Marked()) + {r.value}
      ensures r.None? ==> unchanged(words)
    {
      ghost var marked := Marked();
      var bits := min;
      while bits <= max
        invariant min <= bits
        invariant FirstFree(marked, bits, max) == FirstFree(marked, min, max)
        modifies {}
      {
        IdsInRange(max, bits);
        var on := BitOn(bits);
        if !on {
          break;
        }
        bits := bits + 1;
      }
      if bits <= max {
        var ok := AddBits(bits);
        r := Some(bits);
      } else {
        r := None;
      }
    }
  }

  /** Allocation order on a fresh unshared pool: 2, then 3; after releasing
      2 the next allocation is 2 again. */
  method AllocateReleaseScenario() returns (a: Option<nat>, b: Option<nat>, c: Option<nat>)
    ensures a == Some(2) && b == Some(3) && c == Some(2)
  {
    var pool := new LocalVlanBitmap(2, 4000);
    a := pool.GetUnusedBits();
    b := pool.GetUnusedBits();
    assert FirstFree({2}, 2, 4000) == FirstFree({2}, 3, 4000);
    var ok := pool.DeleteBits(2);
    c := pool.GetUnusedBits();
  }
}
