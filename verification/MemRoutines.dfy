/** rt_memset, rt_memcpy and rt_memmove (kservice.c) on one byte memory.
    Addresses are indices; index 0 is word aligned. */
module MemRoutines {
  const WORD: nat := 4
  const BIG_BLOCK: nat := 16

  /** Word alignment of an address, counted down word by word. */
  predicate Aligned(p: nat) {
    p == 0 || (p >= WORD && Aligned(p - WORD))
  }

  lemma {:induction false} AlignedIsMultiple(p: nat)
    ensures Aligned(p) <==> p % WORD == 0
  {
    if p >= WORD {
      AlignedIsMultiple(p - WORD);
    }
  }

  lemma {:induction false} AlignedSum(p: nat, n: nat)
    requires Aligned(p) && Aligned(n)
    ensures Aligned(p + n)
  {
    if n >= WORD {
      AlignedSum(p, n - WORD);
    }
  }

  // Words, stored least significant byte first

  function ByteOf(w: bv32, n: nat): bv8
    requires n < WORD
  {
    if n == 0 then (w & 0xff) as bv8
    else if n == 1 then ((w >> 8) & 0xff) as bv8
    else if n == 2 then ((w >> 16) & 0xff) as bv8
    else ((w >> 24) & 0xff) as bv8
  }

  function WordOf(b0: bv8, b1: bv8, b2: bv8, b3: bv8): bv32 {
    (b0 as bv32) | ((b1 as bv32) << 8) | ((b2 as bv32) << 16) | ((b3 as bv32) << 24)
  }

  lemma WordBytes(b0: bv8, b1: bv8, b2: bv8, b3: bv8)
    ensures var w := WordOf(b0, b1, b2, b3);
            ByteOf(w, 0) == b0 && ByteOf(w, 1) == b1 && ByteOf(w, 2) == b2 && ByteOf(w, 3) == b3
  {
  }

  /** The word memset stores holds the fill byte four times. */
  function FillWord(d: bv32): (w: bv32)
    requires d <= 0xff
    ensures forall n :: 0 <= n < WORD ==> ByteOf(w, n) == d as bv8
  {
    var half := (d << 8) | d;
    half | (half << 16)
  }

  // The byte loops the word routines are measured against

  /** The n bytes from offset p on. */
  function Bytes(data: seq<bv8>, p: int, n: int): seq<bv8> {
    if 0 <= p && 0 <= n && p + n <= |data| then data[p..p + n] else []
  }

  lemma BytesAre(data: seq<bv8>, p: nat, n: nat, k: nat)
    requires p + n <= |data| && k < n
    ensures |Bytes(data, p, n)| == n && Bytes(data, p, n)[k] == data[p + k]
  {
  }

  lemma ShorterBytes(a: seq<bv8>, b: seq<bv8>, p: int, q: int, n: nat, k: nat)
    requires k <= n && 0 <= p && p + n <= |a| && 0 <= q && q + n <= |b| && Bytes(a, p, n) == Bytes(b, q, n)
    ensures Bytes(a, p, k) == Bytes(b, q, k)
  {
    assert Bytes(a, p, k) == Bytes(a, p, n)[..k] && Bytes(b, q, k) == Bytes(b, q, n)[..k];
  }

  /** The copied bytes read as the source did. */
  lemma CopiedBytes(mem: seq<bv8>, dst: nat, src: nat, n: nat)
    requires dst + n <= |mem| && src + n <= |mem|
    ensures Bytes(Copied(mem, dst, src, n), dst, n) == Bytes(mem, src, n)
  {
    var after := Copied(mem, dst, src, n);
    forall k | dst <= k < dst + n ensures after[k] == mem[src + (k - dst)] {
      CopiedAt(mem, dst, src, n, k);
    }
  }

  /** mem after n rounds of the byte loop that fills from p. */
  function Filled(mem: seq<bv8>, p: nat, b: bv8, n: nat): (r: seq<bv8>)
    requires p + n <= |mem|
    ensures |r| == |mem|
  {
    if n == 0 then mem else Filled(mem, p, b, n - 1)[p + n - 1 := b]
  }

  /** mem after n rounds of a byte loop that copies from a saved source. */
  function Copied(mem: seq<bv8>, dst: nat, src: nat, n: nat): (r: seq<bv8>)
    requires dst + n <= |mem| && src + n <= |mem|
    ensures |r| == |mem|
  {
    if n == 0 then mem else Copied(mem, dst, src, n - 1)[dst + n - 1 := mem[src + n - 1]]
  }

  lemma {:induction false} FilledAt(mem: seq<bv8>, p: nat, b: bv8, n: nat, k: nat)
    requires p + n <= |mem| && k < |mem|
    ensures Filled(mem, p, b, n)[k] == if p <= k < p + n then b else mem[k]
  {
    if n > 0 {
      FilledAt(mem, p, b, n - 1, k);
    }
  }

  lemma {:induction false} CopiedAt(mem: seq<bv8>, dst: nat, src: nat, n: nat, k: nat)
    requires dst + n <= |mem| && src + n <= |mem| && k < |mem|
    ensures Copied(mem, dst, src, n)[k] == if dst <= k < dst + n then mem[src + (k - dst)] else mem[k]
  {
    if n > 0 {
      CopiedAt(mem, dst, src, n - 1, k);
    }
  }

  /** While the regions are disjoint the source still reads as it did. */
  lemma SourceKept(mem: seq<bv8>, dst: nat, src: nat, count: nat, n: nat, k: nat)
    requires Disjoint(|mem|, dst, src, count) && n <= count && src <= k < src + count
    ensures Copied(mem, dst, src, n)[k] == mem[k]
  {
    CopiedAt(mem, dst, src, n, k);
  }

  ghost predicate Disjoint(size: nat, dst: nat, src: nat, count: nat) {
    && dst + count <= size && src + count <= size
    && (dst + count <= src || src + count <= dst)
  }

  // Words in memory

  method StoreWord(mem: array<bv8>, p: nat, w: bv32)
    requires p + 4 <= mem.Length && Aligned(p)
    modifies mem
    ensures mem[..] ==
            old(mem[..])[p := ByteOf(w, 0)][p + 1 := ByteOf(w, 1)][p + 2 := ByteOf(w, 2)][p + 3 := ByteOf(w, 3)]
  {
    mem[p], mem[p + 1], mem[p + 2], mem[p + 3] := ByteOf(w, 0), ByteOf(w, 1), ByteOf(w, 2), ByteOf(w, 3);
  }

  method LoadWord(mem: array<bv8>, p: nat) returns (w: bv32)
    requires p + 4 <= mem.Length && Aligned(p)
    ensures ByteOf(w, 0) == mem[p] && ByteOf(w, 1) == mem[p + 1]
    ensures ByteOf(w, 2) == mem[p + 2] && ByteOf(w, 3) == mem[p + 3]
  {
    w := WordOf(mem[p], mem[p + 1], mem[p + 2], mem[p + 3]);
    WordBytes(mem[p], mem[p + 1], mem[p + 2], mem[p + 3]);
  }

  /** Stores one more fill word. */
  method FillStep(mem: array<bv8>, s: nat, n: nat, w: bv32, ghost b: bv8, ghost base: seq<bv8>)
    requires s + n + 4 <= mem.Length == |base| && Aligned(s) && Aligned(n)
    requires forall i :: 0 <= i < WORD ==> ByteOf(w, i) == b
    requires mem[..] == Filled(base, s, b, n)
    modifies mem
    ensures mem[..] == Filled(base, s, b, n + 4) && Aligned(n + 4)
  {
    AlignedSum(s, n);
    StoreWord(mem, s + n, w);
    FillFour(base, s, b, n);
  }

  lemma FillFour(mem: seq<bv8>, p: nat, b: bv8, n: nat)
    requires p + n + 4 <= |mem|
    ensures Filled(mem, p, b, n + 4) == Filled(mem, p, b, n)[p + n := b][p + n + 1 := b][p + n + 2 := b][p + n + 3 := b]
  {
    assert Filled(mem, p, b, n + 2) == Filled(mem, p, b, n)[p + n := b][p + n + 1 := b];
  }

  /** Stores four. */
  method FillBlock(mem: array<bv8>, s: nat, n: nat, w: bv32, ghost b: bv8, ghost base: seq<bv8>)
    requires s + n + 16 <= mem.Length == |base| && Aligned(s) && Aligned(n)
    requires forall i :: 0 <= i < WORD ==> ByteOf(w, i) == b
    requires mem[..] == Filled(base, s, b, n)
    modifies mem
    ensures mem[..] == Filled(base, s, b, n + 16) && Aligned(n + 16)
  {
    FillStep(mem, s, n, w, b, base);
    FillStep(mem, s, n + 4, w, b, base);
    FillStep(mem, s, n + 8, w, b, base);
    FillStep(mem, s, n + 12, w, b, base);
  }

  /** The two word loops of rt_memset. */
  method FillWords(mem: array<bv8>, s: nat, buffer: bv32, count: nat, ghost b: bv8) returns (n: nat)
    requires s + count <= mem.Length && Aligned(s)
    requires forall i :: 0 <= i < WORD ==> ByteOf(buffer, i) == b
    modifies mem
    ensures n <= count < n + 4 && mem[..] == Filled(old(mem[..]), s, b, n)
  {
    ghost var base := mem[..];
    n := 0;
    while count - n >= 16
      invariant n <= count && Aligned(n) && mem[..] == Filled(base, s, b, n)
    {
      FillBlock(mem, s, n, buffer, b, base);
      n := n + 16;
    }
    while count - n >= 4
      invariant n <= count && Aligned(n) && mem[..] == Filled(base, s, b, n)
    {
      FillStep(mem, s, n, buffer, b, base);
      n := n + 4;
    }
  }

  method MemSet(mem: array<bv8>, s: nat, c: bv32, count: nat)
    requires s + count <= mem.Length
    modifies mem
    ensures mem[..] == Filled(old(mem[..]), s, (c & 0xff) as bv8, count)
  {
    var d := c & 0xff;
    var b := d as bv8;
    ghost var base := mem[..];
    var n := 0;
    if !(count < 4) && Aligned(s) {
      n := FillWords(mem, s, FillWord(d), count, b);
    }
    while n < count
      invariant n <= count && mem[..] == Filled(base, s, b, n)
    {
      mem[s + n] := b;
      n := n + 1;
    }
  }

  /** Moves one more word. */
  method CopyStep(mem: array<bv8>, dst: nat, src: nat, n: nat, ghost count: nat, ghost base: seq<bv8>)
    requires Disjoint(mem.Length, dst, src, count) && |base| == mem.Length && n + 4 <= count
    requires Aligned(dst) && Aligned(src) && Aligned(n)
    requires mem[..] == Copied(base, dst, src, n)
    modifies mem
    ensures mem[..] == Copied(base, dst, src, n + 4) && Aligned(n + 4)
  {
    AlignedSum(dst, n);
    AlignedSum(src, n);
    var w := LoadWord(mem, src + n);
    CopyFour(base, dst, src, n, count);
    assert mem[..][src + n] == mem[src + n] && mem[..][src + n + 1] == mem[src + n + 1];
    assert mem[..][src + n + 2] == mem[src + n + 2] && mem[..][src + n + 3] == mem[src + n + 3];
    StoreWord(mem, dst + n, w);
  }

  lemma CopyFour(mem: seq<bv8>, dst: nat, src: nat, n: nat, count: nat)
    requires Disjoint(|mem|, dst, src, count) && n + 4 <= count
    ensures var now, p, q := Copied(mem, dst, src, n), dst + n, src + n;
            Copied(mem, dst, src, n + 4) ==
            now[p := now[q]][p + 1 := now[q + 1]][p + 2 := now[q + 2]][p + 3 := now[q + 3]]
  {
    SourceKept(mem, dst, src, count, n, src + n);
    SourceKept(mem, dst, src, count, n, src + n + 1);
    SourceKept(mem, dst, src, count, n, src + n + 2);
    SourceKept(mem, dst, src, count, n, src + n + 3);
    assert Copied(mem, dst, src, n + 2) ==
           Copied(mem, dst, src, n)[dst + n := mem[src + n]][dst + n + 1 := mem[src + n + 1]];
  }

  /** Moves four. */
  method CopyBlock(mem: array<bv8>, dst: nat, src: nat, n: nat, ghost count: nat, ghost base: seq<bv8>)
    requires Disjoint(mem.Length, dst, src, count) && |base| == mem.Length && n + 16 <= count
    requires Aligned(dst) && Aligned(src) && Aligned(n)
    requires mem[..] == Copied(base, dst, src, n)
    modifies mem
    ensures mem[..] == Copied(base, dst, src, n + 16) && Aligned(n + 16)
  {
    CopyStep(mem, dst, src, n, count, base);
    CopyStep(mem, dst, src, n + 4, count, base);
    CopyStep(mem, dst, src, n + 8, count, base);
    CopyStep(mem, dst, src, n + 12, count, base);
  }

  /** The two word loops of rt_memcpy. */
  method CopyWords(mem: array<bv8>, dst: nat, src: nat, count: nat) returns (n: nat)
    requires Disjoint(mem.Length, dst, src, count) && Aligned(dst) && Aligned(src)
    modifies mem
    ensures n <= count < n + 4 && mem[..] == Copied(old(mem[..]), dst, src, n)
  {
    ghost var base := mem[..];
    n := 0;
    while count - n >= 16
      invariant n <= count && Aligned(n) && mem[..] == Copied(base, dst, src, n)
    {
      CopyBlock(mem, dst, src, n, count, base);
      n := n + 16;
    }
    while count - n >= 4
      invariant n <= count && Aligned(n) && mem[..] == Copied(base, dst, src, n)
    {
      CopyStep(mem, dst, src, n, count, base);
      n := n + 4;
    }
  }

  /** rt_memcpy on regions that do not overlap. */
  method MemCpy(mem: array<bv8>, dst: nat, src: nat, count: nat)
    requires Disjoint(mem.Length, dst, src, count)
    modifies mem
    ensures mem[..] == Copied(old(mem[..]), dst, src, count)
  {
    ghost var base := mem[..];
    var n := 0;
    if !(count < 16) && Aligned(dst) && Aligned(src) {
      n := CopyWords(mem, dst, src, count);
    }
    while n < count
      invariant n <= count && mem[..] == Copied(base, dst, src, n)
    {
      SourceKept(base, dst, src, count, n, src + n);
      assert mem[src + n] == mem[..][src + n];
      mem[dst + n] := mem[src + n];
      n := n + 1;
    }
  }

  /** rt_memmove: the regions may overlap in any way. */
  method MemMove(mem: array<bv8>, dest: nat, src: nat, n: nat)
    requires dest + n <= mem.Length && src + n <= mem.Length
    modifies mem
    ensures mem[..] == Copied(old(mem[..]), dest, src, n)
  {
    ghost var base := mem[..];
    var tmp, s, left := dest, src, n;
    if s < tmp && tmp < s + n {
      tmp, s := tmp + n, s + n;
      while left > 0
        invariant tmp == dest + left && s == src + left && 0 <= left <= n
        invariant forall k :: 0 <= k < mem.Length ==>
                    mem[k] == if tmp <= k < dest + n then old(mem[src + (k - dest)]) else old(mem[k])
      {
        tmp, s, left := tmp - 1, s - 1, left - 1;
        mem[tmp] := mem[s];
      }
    } else {
      while left > 0
        invariant tmp + left == dest + n && s - src == tmp - dest >= 0 && 0 <= left
        invariant forall k :: 0 <= k < mem.Length ==>
                    mem[k] == if dest <= k < tmp then old(mem[src + (k - dest)]) else old(mem[k])
      {
        mem[tmp] := mem[s];
        tmp, s, left := tmp + 1, s + 1, left - 1;
      }
    }
    forall k | 0 <= k < mem.Length ensures mem[k] == Copied(base, dest, src, n)[k] {
      CopiedAt(base, dest, src, n, k);
    }
  }
}
