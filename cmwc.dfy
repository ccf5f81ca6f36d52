/**
 * Marsaglia's complement-multiply-with-carry generator with a lag of 4096
 * 32-bit words (cmwc4096.c / cmwc4096.h).  Words are integers in [0, 2^32);
 * the 64-bit intermediate of a step never wraps, so it is a plain integer.
 * The C library's `rand` is not modelled: the words it would produce are a
 * parameter of the initialiser.
 */
module Cmwc {
  /** CMWC_CYCLE: the lag, a power of two. */
  const CYCLE: int := 4096
  /** CMWC_C_MAX: the carry must stay below this. */
  const C_MAX: int := 809430660
  /** The multiplier and the complement base Marsaglia recommends. */
  const A: int := 18782
  const M: int := 0xffff_fffe
  const TWO32: int := 0x1_0000_0000
  /** The modulus the step reduces by: 2^32 - 1. */
  const B: int := 0xffff_ffff
  /** The shift that puts the first draw of rand32 in the high half. */
  const HALF: bv32 := 16

  predicate IsWord(v: int)
  {
    0 <= v < TWO32
  }

  /**
   * rand32: the first draw shifted left 16 bits in 32-bit arithmetic, xor
   * the second.  The low half comes from the second draw alone.
   */
  function Rand32(hi: bv32, lo: bv32): (r: bv32)
    ensures r & 0xffff == lo & 0xffff
    ensures r >> HALF == (hi ^ (lo >> HALF)) & 0xffff
  {
    (hi << HALF) ^ lo
  }

  /** What one step produces: the word x before complementing, and the new carry. */
  datatype Draw = Draw(x: int, carry: int)

  /**
   * The arithmetic of one randCMWC step on the lagged word `qv` and the
   * carry `c`: t = a*qv + c, carry = t >> 32, x = (t + carry) mod 2^32,
   * and both are bumped when that sum wrapped.  The result is the
   * multiply-with-carry split of t by the base 2^32 - 1.
   */
  function Step(qv: int, c: int): (d: Draw)
    requires IsWord(qv) && IsWord(c)
    ensures A * qv + c == d.carry * B + d.x
    ensures IsWord(d.x) && 0 <= d.carry <= A + 1
  {
    var t := A * qv + c;
    var hi := t / TWO32;
    var x := (t + hi) % TWO32;
    SplitOfWide(t, hi, t % TWO32, x);
    if x < hi then Draw(x + 1, hi + 1) else Draw(x, hi)
  }

  /** How t = hi * 2^32 + lo relates to the wrapped sum lo + hi. */
  lemma SplitOfWide(t: int, hi: int, lo: int, x: int)
    requires 0 <= t < (A + 1) * TWO32
    requires hi == t / TWO32 && lo == t % TWO32 && x == (t + hi) % TWO32
    ensures 0 <= hi <= A && IsWord(x)
    ensures x >= hi ==> t == hi * B + x
    ensures x < hi ==> t == (hi + 1) * B + (x + 1)
  {
    assert t == hi * TWO32 + lo;
    assert t + hi == hi * TWO32 + (lo + hi);
    if lo + hi < TWO32 {
      assert x == lo + hi;
    } else {
      assert x == lo + hi - TWO32;
    }
  }

  /** The value returned: 0xfffffffe - x in 32-bit arithmetic. */
  function Output(d: Draw): (r: int)
    requires IsWord(d.x)
    ensures IsWord(r)
    ensures d.x <= M ==> r == M - d.x
    ensures d.x == B ==> r == B
  {
    (M - d.x) % TWO32
  }

  /**
   * The index following i: (i + 1) & (CYCLE - 1), which is (i + 1) mod CYCLE
   * because CYCLE is a power of two.
   */
  function NextIndex(i: int): (r: int)
    requires 0 <= i < CYCLE
    ensures 0 <= r < CYCLE
    ensures i < CYCLE - 1 ==> r == i + 1
    ensures i == CYCLE - 1 ==> r == 0
  {
    (i + 1) % CYCLE
  }

  /** The index of the first draw at or after k that is below C_MAX. */
  function FirstCarry(draws: seq<int>, k: nat): (r: nat)
    requires k <= |draws|
    requires exists j | k <= j < |draws| :: draws[j] < C_MAX
    ensures k <= r < |draws| && draws[r] < C_MAX
    ensures forall j | k <= j < r :: draws[j] >= C_MAX
    decreases |draws| - k
  {
    if draws[k] < C_MAX then k
    else
      assert exists j | k + 1 <= j < |draws| :: draws[j] < C_MAX by {
        var j :| k <= j < |draws| && draws[j] < C_MAX;
        assert j != k;
      }
      FirstCarry(draws, k + 1)
  }

  /** cmwc_state: the lag table Q, the carry c and the index i. */
  class State {
    const q: array<int>
    var c: int
    var i: int

    ghost predicate Valid()
      reads this, q
    {
      q.Length == CYCLE && (forall k | 0 <= k < CYCLE :: IsWord(q[k]))
      && 0 <= c < C_MAX && 0 <= i < CYCLE
    }

    /**
     * initCMWC: `draws` are the successive rand32 results after seeding.
     * Q takes the first 4096 of them; the carry is then drawn again until
     * one lies below C_MAX; i starts at 4095.
     */
    constructor Init(draws: seq<int>)
      requires CYCLE < |draws| && forall k | 0 <= k < |draws| :: IsWord(draws[k])
      requires exists j | CYCLE <= j < |draws| :: draws[j] < C_MAX
      ensures Valid() && fresh(q)
      ensures q[..] == draws[..CYCLE]
      ensures c == draws[FirstCarry(draws, CYCLE)]
      ensures i == CYCLE - 1
    {
      var table := new int[CYCLE];
      for k := 0 to CYCLE
        invariant forall j | 0 <= j < k :: table[j] == draws[j]
      {
        table[k] := draws[k];
      }
      var n := CYCLE;
      var first := FirstCarry(draws, CYCLE);
      while draws[n] >= C_MAX
        invariant CYCLE <= n <= first
        decreases first - n
      {
        n := n + 1;
      }
      q := table;
      c := draws[n];
      i := CYCLE - 1;
      new;
      assert q[..] == draws[..CYCLE];
    }

    /**
     * randCMWC: advance i, replace Q[i] by the complement of the step's
     * word and return it; the carry becomes the step's carry.
     */
    method Next() returns (r: int)
      requires Valid()
      modifies this, q
      ensures Valid()
      ensures i == NextIndex(old(i))
      ensures c == Step(old(q[..])[i], old(c)).carry
      ensures r == Output(Step(old(q[..])[i], old(c)))
      ensures q[..] == old(q[..])[i := r]
    {
      i := (i + 1) % CYCLE;
      ghost var d := Step(q[i], c);
      var t := A * q[i] + c;
      c := t / TWO32;
      var x := (t + c) % TWO32;
      if x < c {
        x := x + 1;
        c := c + 1;
      }
      assert x == d.x && c == d.carry;
      r := (M - x) % TWO32;
      q[i] := r;
    }
  }

  /** The carry limit survives every step: the new carry is at most 18783. */
  lemma StepKeepsCarryLimit(qv: int, c: int)
    requires IsWord(qv) && IsWord(c) && c < C_MAX
    ensures Step(qv, c).carry < C_MAX
    ensures c <= B - A ==> Step(qv, c).carry <= A
  {
    var d := Step(qv, c);
    if c <= B - A {
      MulMono(qv, B, A);
      assert d.carry * B < (A + 1) * B;
      FactorBelow(d.carry, B, A + 1);
    }
  }

  lemma MulMono(qv: int, b: int, a: int)
    requires 0 <= qv <= b && 0 <= a
    ensures a * qv <= a * b
  {
  }

  lemma FactorBelow(k: int, b: int, n: int)
    requires b > 0 && k * b < n * b
    ensures k < n
  {
    assert (n - k) * b == n * b - k * b;
  }
}
