/**
 * GenericMemory (genericMemory.hpp / genericMemory.cpp): pointer alignment,
 * pattern memset, small swaps and the aligned allocator that keeps the
 * requested size and the system block's address in two header words just
 * below the pointer it hands out.
 *
 * Addresses are integers.  Byte buffers are arrays of `byte`; the
 * allocator's memory is two maps, one from the address of each header
 * word to its value and one from data addresses to bytes.  The system
 * `::malloc` is not modelled: the address it returns is a parameter.
 */
module Memory {
  newtype byte = x: int | 0 <= x < 256

  /** GENERIC_MEMORY_SMALL_MEMSWAP_MAX */
  const SMALL_MEMSWAP_MAX: nat := 16
  /** sizeof(void*) and sizeof(uintptr): the two header words. */
  const WORD: nat := 8

  predicate IsPowerOfTwo(a: nat)
  {
    a >= 1 && (a == 1 || (a % 2 == 0 && IsPowerOfTwo(a / 2)))
  }

  // ---------------------------------------------------------------------
  // align
  // ---------------------------------------------------------------------

  /**
   * align(ptr, a) = (ptr + a - 1) & ~(a - 1).  For a power of two the mask
   * clears the low bits, which rounds down to a multiple of a.
   */
  function Align(ptr: nat, alignment: nat): (r: nat)
    requires IsPowerOfTwo(alignment)
    ensures r % alignment == 0
    ensures ptr <= r < ptr + alignment
  {
    var x := ptr + alignment - 1;
    DivMod(x, alignment);
    ModOfOffset(x / alignment, alignment, 0);
    x - x % alignment
  }

  /** Euclidean division: x is its quotient times a plus its remainder. */
  lemma DivMod(x: int, a: int)
    requires a > 0
    ensures x == x / a * a + x % a && 0 <= x % a < a
  {
  }

  /** An aligned pointer stays where it is. */
  lemma AlignIdempotent(ptr: nat, alignment: nat)
    requires IsPowerOfTwo(alignment)
    ensures Align(Align(ptr, alignment), alignment) == Align(ptr, alignment)
  {
    var r := Align(ptr, alignment);
    AlignOfMultiple(r, alignment);
  }

  lemma AlignOfMultiple(r: nat, alignment: nat)
    requires IsPowerOfTwo(alignment) && r % alignment == 0
    ensures Align(r, alignment) == r
  {
    var x := r + alignment - 1;
    assert x == r + (alignment - 1);
    ModOfOffset(r / alignment, alignment, alignment - 1);
    assert r == r / alignment * alignment;
  }

  /** (q * a + j) % a == j for 0 <= j < a. */
  lemma ModOfOffset(q: nat, a: nat, j: nat)
    requires j < a
    ensures (q * a + j) % a == j && (q * a + j) / a == q
  {
    var m := q * a + j;
    DivMod(m, a);
    var d, r := m / a, m % a;
    assert (d - q) * a == j - r;
    if d > q {
      MulAtLeast(d - q, a);
    } else if d < q {
      MulAtLeast(q - d, a);
    }
  }

  lemma MulAtLeast(k: int, a: int)
    requires k >= 1 && a > 0
    ensures k * a >= a
  {
  }

  // ---------------------------------------------------------------------
  // memset, memzero, memcpy, memswap
  // ---------------------------------------------------------------------

  /** Byte k of a region filled with copies of `val`. */
  function Pattern(val: seq<byte>, k: nat): byte
    requires |val| > 0
  {
    val[k % |val|]
  }

  /** memcpy(dest + at, src, n): n bytes from the front of src. */
  method CopyInto(dest: array<byte>, at: nat, src: seq<byte>, n: nat)
    requires n <= |src| && at + n <= dest.Length
    modifies dest
    ensures dest[..] == old(dest[..])[..at] + src[..n] + old(dest[..])[at + n..]
  {
    for j := 0 to n
      invariant forall k | 0 <= k < dest.Length :: dest[k] == (if at <= k < at + j then src[k - at] else old(dest[k]))
    {
      dest[at + j] := src[j];
    }
    assert dest[..] == old(dest[..])[..at] + src[..n] + old(dest[..])[at + n..];
  }

  /**
   * memset<T>(dest, val, amt): amt / sizeof(T) whole copies of the bytes of
   * val, then the first amt % sizeof(T) bytes of one more.
   */
  method MemsetPattern(dest: array<byte>, val: seq<byte>, amt: nat)
    requires |val| > 0 && amt <= dest.Length
    modifies dest
    ensures forall k | 0 <= k < amt :: dest[k] == Pattern(val, k)
    ensures forall k | amt <= k < dest.Length :: dest[k] == old(dest[k])
  {
    var size := |val|;
    var amtT := amt / size;
    var remainder := amt % size;
    assert amtT * size + remainder == amt;
    for i := 0 to amtT
      invariant forall k | 0 <= k < i * size :: dest[k] == Pattern(val, k)
      invariant forall k | i * size <= k < dest.Length :: dest[k] == old(dest[k])
    {
      MulStep(i, size, amtT, amt);
      CopyInto(dest, i * size, val, size);
      forall k | i * size <= k < (i + 1) * size
        ensures dest[k] == Pattern(val, k)
      {
        ModOfOffset(i, size, k - i * size);
      }
    }
    CopyInto(dest, amtT * size, val, remainder);
    forall k | amtT * size <= k < amt
      ensures dest[k] == Pattern(val, k)
    {
      ModOfOffset(amtT, size, k - amtT * size);
    }
  }

  lemma MulStep(i: nat, size: nat, amtT: nat, amt: nat)
    requires i < amtT && amtT * size <= amt
    ensures (i + 1) * size <= amt && (i + 1) * size == i * size + size
  {
    assert (i + 1) * size <= amtT * size;
  }

  /** The uint8 specialisation: ::memset with one byte. */
  method Memset(dest: array<byte>, val: byte, amt: nat)
    requires amt <= dest.Length
    modifies dest
    ensures forall k | 0 <= k < amt :: dest[k] == val
    ensures forall k | amt <= k < dest.Length :: dest[k] == old(dest[k])
  {
    for k := 0 to amt
      invariant forall j | 0 <= j < k :: dest[j] == val
      invariant forall j | k <= j < dest.Length :: dest[j] == old(dest[j])
    {
      dest[k] := val;
    }
  }

  /** memzero: ::memset with 0. */
  method Memzero(dest: array<byte>, amt: nat)
    requires amt <= dest.Length
    modifies dest
    ensures forall k | 0 <= k < amt :: dest[k] == 0
    ensures forall k | amt <= k < dest.Length :: dest[k] == old(dest[k])
  {
    Memset(dest, 0, amt);
  }

  /** A one-byte pattern fills every byte with that byte; here the specialisation agrees with the template. */
  lemma OneBytePattern(val: byte, k: nat)
    ensures Pattern([val], k) == val
  {
  }

  /** A multi-byte pattern repeats with the period of its size. */
  lemma PatternPeriodic(val: seq<byte>, k: nat)
    requires |val| > 0
    ensures Pattern(val, k + |val|) == Pattern(val, k)
  {
    var size := |val|;
    ModOfOffset(k / size, size, k % size);
    ModOfOffset(k / size + 1, size, k % size);
    assert k == k / size * size + k % size;
    assert k + size == (k / size + 1) * size + k % size;
  }

  /** What CopyInto leaves when it writes to the front of a buffer. */
  lemma CopiedToFront(d0: seq<byte>, src: seq<byte>, n: nat, d: seq<byte>)
    requires n <= |src| && n <= |d0| && d == d0[..0] + src[..n] + d0[0 + n..]
    ensures d == src[..n] + d0[n..]
  {
    assert d0[..0] == [];
  }

  /**
   * smallmemswap: through a 16-byte temporary, the first `size` bytes of
   * two distinct buffers trade places.
   */
  method SmallMemswap(a: array<byte>, b: array<byte>, size: nat)
    requires a != b && size <= SMALL_MEMSWAP_MAX
    requires size <= a.Length && size <= b.Length
    modifies a, b
    ensures a[..] == old(b[..size]) + old(a[size..])
    ensures b[..] == old(a[..size]) + old(b[size..])
  {
    ghost var a0, b0 := a[..], b[..];
    var temp := new byte[SMALL_MEMSWAP_MAX];
    ghost var t0 := temp[..];
    CopyInto(temp, 0, a[..], size);
    CopiedToFront(t0, a0, size, temp[..]);
    CopyInto(a, 0, b[..], size);
    CopiedToFront(a0, b0, size, a[..]);
    ghost var a1, t1 := a[..], temp[..];
    CopyInto(b, 0, temp[..], size);
    CopiedToFront(b0, t1, size, b[..]);
    assert a[..] == a1;
  }

  /** memswap: sizes up to 16 take the small path. */
  method Memswap(a: array<byte>, b: array<byte>, size: nat)
    requires a != b && size <= SMALL_MEMSWAP_MAX
    requires size <= a.Length && size <= b.Length
    modifies a, b
    ensures a[..] == old(b[..size]) + old(a[size..])
    ensures b[..] == old(a[..size]) + old(b[size..])
  {
    SmallMemswap(a, b, size);
  }

  // ---------------------------------------------------------------------
  // The aligned allocator
  // ---------------------------------------------------------------------

  /** The alignment malloc and realloc use: at least 16 for 16 bytes or more, else at least 8. */
  function EffectiveAlignment(amt: nat, alignment: nat): (r: nat)
    ensures r >= alignment
    ensures amt >= 16 ==> r >= 16
    ensures r >= WORD
    ensures r == alignment || r == (if amt >= 16 then 16 else 8)
  {
    var least := if amt >= 16 then 16 else 8;
    if least >= alignment then least else alignment
  }

  /** How many bytes malloc asks the system for. */
  function RawSize(amt: nat, alignment: nat): nat
  {
    amt + alignment + WORD + WORD
  }

  /** The pointer malloc hands out for a system block at `raw`. */
  function Placed(raw: nat, alignment: nat): nat
    requires IsPowerOfTwo(alignment)
  {
    Align(raw + WORD + WORD, alignment)
  }

  /**
   * The layout: the handed-out pointer is aligned, both header words lie
   * in the system block below it, and the amt data bytes fit in the block.
   */
  lemma PlacedInBlock(raw: nat, amt: nat, alignment: nat)
    requires IsPowerOfTwo(alignment)
    ensures Placed(raw, alignment) % alignment == 0
    ensures raw <= Placed(raw, alignment) - 2 * WORD
    ensures Placed(raw, alignment) + amt <= raw + RawSize(amt, alignment)
  {
  }

  /**
   * The memory the allocator touches: header words by address, data bytes
   * by address, and the live system blocks with their sizes.
   */
  class Heap {
    var words: map<int, int>
    var bytes: map<int, byte>
    var blocks: map<int, nat>

    constructor ()
      ensures words == map[] && bytes == map[] && blocks == map[]
    {
      words, bytes, blocks := map[], map[], map[];
    }

    /**
     * malloc(amt, alignment): `raw` is the block ::malloc returned for
     * RawSize bytes.  The size goes in the word 16 bytes below the result,
     * the raw address in the word 8 bytes below.
     */
    method Malloc(amt: nat, alignment: nat, raw: nat) returns (result: nat)
      requires IsPowerOfTwo(EffectiveAlignment(amt, alignment))
      modifies this
      ensures result == Placed(raw, EffectiveAlignment(amt, alignment))
      ensures result % EffectiveAlignment(amt, alignment) == 0 && raw + 2 * WORD <= result
      ensures blocks == old(blocks)[raw := RawSize(amt, EffectiveAlignment(amt, alignment))]
      ensures words == old(words)[result - WORD := raw][result - 2 * WORD := amt]
      ensures bytes == old(bytes)
    {
      var eff := EffectiveAlignment(amt, alignment);
      blocks := blocks[raw := RawSize(amt, eff)];
      result := Align(raw + WORD + WORD, eff);
      words := words[result - WORD := raw];
      words := words[result - 2 * WORD := amt];
    }

    /** getAllocSize: the word 16 bytes below ptr. */
    method GetAllocSize(ptr: nat) returns (size: int)
      requires ptr - 2 * WORD in words
      ensures size == words[ptr - 2 * WORD]
    {
      size := words[ptr - 2 * WORD];
    }

    /** free: a non-null pointer releases the raw block named in its header; the result is always null. */
    method Free(ptr: nat) returns (r: nat)
      requires ptr != 0 ==> ptr - WORD in words
      modifies this
      ensures r == 0
      ensures ptr == 0 ==> blocks == old(blocks)
      ensures ptr != 0 ==> blocks == old(blocks) - {old(words)[ptr - WORD]}
      ensures words == old(words) && bytes == old(bytes)
    {
      if ptr != 0 {
        blocks := blocks - {words[ptr - WORD]};
      }
      r := 0;
    }

    /** memcpy between two data ranges of the heap. */
    method Copy(dst: int, src: int, n: nat)
      requires Holds(bytes, src, n)
      requires src + n <= dst || dst + n <= src
      modifies this
      ensures CopiedFrom(bytes, old(bytes), dst, src, n)
      ensures UnchangedOutside(bytes, old(bytes), dst, n)
      ensures words == old(words) && blocks == old(blocks)
    {
      for j := 0 to n
        invariant CopiedFrom(bytes, old(bytes), dst, src, j)
        invariant UnchangedOutside(bytes, old(bytes), dst, j)
        invariant words == old(words) && blocks == old(blocks)
      {
        assert src + j in old(bytes);
        bytes := bytes[dst + j := bytes[src + j]];
      }
    }

    /**
     * realloc: a null pointer is a plain malloc; size 0 frees and returns
     * null; otherwise a fresh block receives min(old size, amt) bytes and
     * the old block is freed.
     */
    method Realloc(ptr: nat, amt: nat, alignment: nat, raw: nat) returns (result: nat)
      requires IsPowerOfTwo(EffectiveAlignment(amt, alignment))
      requires ptr != 0 ==> ptr - WORD in words && ptr - 2 * WORD in words
      requires ptr != 0 && amt != 0 ==> ReallocCopyable(this, ptr, amt, alignment, raw)
      modifies this
      ensures ptr == 0 ==> result == Placed(raw, EffectiveAlignment(amt, alignment))
      ensures ptr == 0 ==> words == old(words)[result - WORD := raw][result - 2 * WORD := amt]
      ensures ptr == 0 ==> blocks == old(blocks)[raw := RawSize(amt, EffectiveAlignment(amt, alignment))]
      ensures ptr != 0 && amt == 0 ==> result == 0
      ensures ptr != 0 && amt == 0 ==> blocks == old(blocks) - {old(words)[ptr - WORD]}
      ensures ptr != 0 && amt != 0 ==> result == Placed(raw, EffectiveAlignment(amt, alignment))
      ensures ptr != 0 && amt != 0 ==> words == old(words)[result - WORD := raw][result - 2 * WORD := amt]
      ensures ptr != 0 && amt != 0 ==> CopiedFrom(bytes, old(bytes), result, ptr, Min(old(words)[ptr - 2 * WORD], amt))
      ensures ptr != 0 && amt != 0 ==>
        blocks == old(blocks)[raw := RawSize(amt, EffectiveAlignment(amt, alignment))] - {old(words)[ptr - WORD]}
    {
      var eff := EffectiveAlignment(amt, alignment);
      if ptr == 0 {
        result := Malloc(amt, eff, raw);
        return;
      }
      if amt == 0 {
        var _ := Free(ptr);
        return 0;
      }
      result := Malloc(amt, eff, raw);
      var size := GetAllocSize(ptr);
      Copy(result, ptr, Min(size, amt));
      var _ := Free(ptr);
    }
  }

  function Min(a: int, b: int): (r: int)
    ensures r <= a && r <= b && (r == a || r == b)
  {
    if a <= b then a else b
  }

  /** Every address of [lo, lo + n) holds a byte. */
  ghost predicate Holds(bytes: map<int, byte>, lo: int, n: nat)
  {
    forall a | lo <= a < lo + n :: a in bytes
  }

  /** [dst, dst + n) of `now` holds what [src, src + n) of `before` held. */
  ghost predicate CopiedFrom(now: map<int, byte>, before: map<int, byte>, dst: int, src: int, n: nat)
  {
    forall a | dst <= a < dst + n :: a in now && a - dst + src in before && now[a] == before[a - dst + src]
  }

  /** Outside [dst, dst + n) nothing was added and nothing changed. */
  ghost predicate UnchangedOutside(now: map<int, byte>, before: map<int, byte>, dst: int, n: nat)
  {
    (forall a | a in before && !(dst <= a < dst + n) :: a in now && now[a] == before[a])
    && (forall a | a in now :: a in before || dst <= a < dst + n)
  }

  /**
   * What realloc's copy needs of the old block: its first min(size, amt)
   * bytes are there, the range the new pointer receives does not overlap
   * them (the new system block is fresh), and the new header words do not
   * land on the old ones.
   */
  ghost predicate ReallocCopyable(h: Heap, ptr: nat, amt: nat, alignment: nat, raw: nat)
    reads h
  {
    ptr - WORD in h.words && ptr - 2 * WORD in h.words
    && IsPowerOfTwo(EffectiveAlignment(amt, alignment))
    && var n := Min(h.words[ptr - 2 * WORD], amt);
       var res := Placed(raw, EffectiveAlignment(amt, alignment));
       n >= 0 && Holds(h.bytes, ptr, n)
       && (ptr + n <= res || res + n <= ptr)
       && ptr != res && ptr != res - WORD && ptr != res + WORD
  }
}
