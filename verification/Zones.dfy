/** Zone geometry of the slab heap (slab.c): which chunk size serves a request, and where
    the chunks of a zone lie. */
module Zones {
  import opened Arithmetic

  const PAGE: nat := 4096
  const NZONES: nat := 72
  const HEADER: nat := 36
  const MIN_CHUNK: nat := 8

  // Buckets

  /** zoneindex: the bucket of a request and the chunk size it is served with. */
  datatype Bucket = Bucket(index: nat, size: nat)

  function ZoneIndex(n: nat): Bucket
    requires n > 0
  {
    if n < 128 then var s := RoundUp(n, 8); Bucket(if s / 8 > 0 then s / 8 - 1 else 0, s)
    else if n < 256 then var s := RoundUp(n, 16); Bucket(s / 16 + 7, s)
    else if n < 8192 then
      if n < 512 then var s := RoundUp(n, 32); Bucket(s / 32 + 15, s)
      else if n < 1024 then var s := RoundUp(n, 64); Bucket(s / 64 + 23, s)
      else if n < 2048 then var s := RoundUp(n, 128); Bucket(s / 128 + 31, s)
      else if n < 4096 then var s := RoundUp(n, 256); Bucket(s / 256 + 39, s)
      else var s := RoundUp(n, 512); Bucket(s / 512 + 47, s)
    else if n < 16384 then var s := RoundUp(n, 1024); Bucket(s / 1024 + 55, s)
    else Bucket(0, n)
  }

  /** The chunk size of a bucket, told by the table of the documentation: 16 buckets 8 apart,
      then 8 buckets for each doubling. */
  function ChunkSize(index: nat): nat {
    if index < 16 then 8 * (index + 1)
    else if index < 24 then 128 + 16 * (index - 15)
    else if index < 32 then 256 + 32 * (index - 23)
    else if index < 40 then 512 + 64 * (index - 31)
    else if index < 48 then 1024 + 128 * (index - 39)
    else if index < 56 then 2048 + 256 * (index - 47)
    else if index < 64 then 4096 + 512 * (index - 55)
    else 8192 + 1024 * (index - 63)
  }

  /** A request goes to the bucket with the smallest chunk size that holds it, so all
      requests of a bucket share one chunk size. */
  lemma BestFit(n: nat)
    requires 0 < n < 16384
    ensures var b := ZoneIndex(n); b.index < NZONES && b.size == ChunkSize(b.index) && n <= b.size
    ensures var b := ZoneIndex(n); b.index > 0 ==> ChunkSize(b.index - 1) < n
  {
    var q := Steps(n, Step(n));
  }

  /** The chunking of a request. */
  function Step(n: nat): (s: nat)
    ensures s > 0
  {
    if n < 128 then 8 else if n < 256 then 16 else if n < 512 then 32 else if n < 1024 then 64
    else if n < 2048 then 128 else if n < 4096 then 256 else if n < 8192 then 512 else 1024
  }

  lemma Steps(n: nat, align: nat) returns (q: nat)
    requires n > 0 && align > 0
    ensures RoundUp(n, align) == align * q && RoundUp(n, align) / align == q && align * q - align < n <= align * q
    ensures q > 0
  {
    q := (n + align - 1) / align;
    RoundUpFacts(n, align);
    MultipleMod(q, align);
    assert q * align == align * q;
  }

  lemma SameBucketSameSize(m: nat, n: nat)
    requires 0 < m < 16384 && 0 < n < 16384 && ZoneIndex(m).index == ZoneIndex(n).index
    ensures ZoneIndex(m).size == ZoneIndex(n).size
  {
    BestFit(m);
    BestFit(n);
  }

  lemma {:induction false} ChunkSizesGrow(i: nat, j: nat)
    requires i < j
    ensures ChunkSize(i) < ChunkSize(j)
  {
    if i + 1 < j {
      ChunkSizesGrow(i, j - 1);
    }
  }

  /** Asking again for the size one was given leads to the same bucket, except that the
      largest chunk size is itself too large for a zone. */
  lemma Idempotent(n: nat)
    requires 0 < n < 16384
    ensures ZoneIndex(ZoneIndex(n).size) == ZoneIndex(n) <==> n <= 15360
  {
    var q := Steps(n, Step(n));
    var size := ZoneIndex(n).size;
    var r := Steps(size, Step(size));
    BestFit(n);
    if size < 16384 {
      BestFit(size);
    }
  }

  // The inside of a zone

  predicate PowerOfTwo(n: nat) {
    n == 1 || (n > 1 && n % 2 == 0 && PowerOfTwo(n / 2))
  }

  /** Where the chunks begin: behind the header, aligned for the chunk size. */
  function Offset(size: nat): nat
    requires size > 0
  {
    RoundUp(HEADER, if PowerOfTwo(size) then size else MIN_CHUNK)
  }

  function Quotient(n: nat, d: nat): nat
    requires d > 0
  {
    n / d
  }

  /** How many chunks fit. */
  function Count(zonePages: nat, size: nat): nat
    requires size > 0
  {
    if zonePages * PAGE >= Offset(size) then Quotient(zonePages * PAGE - Offset(size), size) else 0
  }

  /** The zone sizes there are, and the chunks they are used for. */
  predicate Served(zonePages: nat, size: nat) {
    zonePages in {8, 16, 32} && 8 <= size <= zonePages * PAGE / 4
  }

  lemma DivBounds(n: nat, d: nat)
    requires d > 0
    ensures n / d * d <= n < n / d * d + d
  {
    assert n == n / d * d + n % d;
  }

  lemma DivAtLeast(n: nat, d: nat, k: nat)
    requires d > 0 && n >= d * k
    ensures n / d >= k
  {
    var q := n / d;
    assert n == d * q + n % d;
    assert d * (k - q) <= n % d;
    if q < k {
      AtLeast(d, k - q);
    }
  }

  /** A zone has room for its header and at least two chunks. */
  lemma Geometry(zonePages: nat, size: nat)
    requires Served(zonePages, size)
    ensures HEADER <= Offset(size) <= zonePages * PAGE && Count(zonePages, size) >= 2
    ensures Offset(size) + Count(zonePages, size) * size <= zonePages * PAGE
  {
    RoundUpFacts(HEADER, if PowerOfTwo(size) then size else MIN_CHUNK);
    var room := zonePages * PAGE - Offset(size);
    DivBounds(room, size);
    DivAtLeast(room, size, 2);
  }

  /** The address of chunk k of the zone at page z. */
  function Address(z: nat, size: nat, k: nat): nat
    requires size > 0
  {
    z * PAGE + Offset(size) + k * size
  }

  lemma Monotone(j: nat, k: nat, size: nat)
    requires j <= k
    ensures j * size <= k * size
  {
    assert k * size - j * size == (k - j) * size;
  }

  /** Chunks do not overlap. */
  lemma ChunksApart(z: nat, size: nat, j: nat, k: nat)
    requires size > 0 && j < k
    ensures Address(z, size, j) + size <= Address(z, size, k)
  {
    Monotone(j + 1, k, size);
    assert (j + 1) * size == j * size + size;
  }

  lemma Fits(off: nat, size: nat, k: nat, n: nat, room: nat)
    requires k < n && off + n * size <= room
    ensures off + k * size + size <= room
  {
    Monotone(k + 1, n, size);
    assert (k + 1) * size == k * size + size;
  }

  /** A chunk lies in its zone behind the header. */
  lemma ChunkInside(z: nat, zonePages: nat, size: nat, k: nat)
    requires Served(zonePages, size) && k < Count(zonePages, size)
    ensures z * PAGE + HEADER <= Address(z, size, k)
    ensures Address(z, size, k) + size <= (z + zonePages) * PAGE
  {
    Geometry(zonePages, size);
    Fits(Offset(size), size, k, Count(zonePages, size), zonePages * PAGE);
  }

  /** So its page is one of the zone's. */
  lemma ChunkPage(z: nat, zonePages: nat, size: nat, k: nat)
    requires Served(zonePages, size) && k < Count(zonePages, size)
    ensures z <= Address(z, size, k) / PAGE < z + zonePages
  {
    ChunkInside(z, zonePages, size, k);
    PageOf(Address(z, size, k), z, zonePages);
  }

  lemma PageOf(a: nat, z: nat, n: nat)
    requires z * PAGE <= a < (z + n) * PAGE
    ensures z <= a / PAGE < z + n
  {
  }

  /** Chunks whose size is a power of two are aligned to it within their zone. */
  lemma ChunkAligned(size: nat, k: nat)
    requires size > 0 && PowerOfTwo(size)
    ensures (Offset(size) + k * size) % size == 0
  {
    RoundUpFacts(HEADER, size);
    var q := (HEADER + size - 1) / size;
    assert Offset(size) + k * size == (q + k) * size;
    MultipleMod(q + k, size);
  }

  lemma {:induction false} PowersDivide(m: nat, n: nat)
    requires PowerOfTwo(m) && PowerOfTwo(n) && m <= n
    ensures n % m == 0
  {
    if m == 1 {
      DivUnique(n, 1, n, 0);
    } else {
      PowersDivide(m / 2, n / 2);
      var q := n / 2 / (m / 2);
      assert n / 2 == (m / 2) * q;
      DivUnique(n, m, q, 0);
    }
  }

  /** The heap begins at page h of the address space, and zones and large blocks at any page:
      a chunk whose size is a power of two is aligned to it exactly when its zone is. */
  lemma AlignedIfZoneIs(h: nat, z: nat, size: nat, k: nat)
    requires size > 0 && PowerOfTwo(size)
    ensures (h * PAGE + Address(z, size, k)) % size == 0 <==> ((h + z) * PAGE) % size == 0
  {
    ChunkAligned(size, k);
    var inside, base := Offset(size) + k * size, (h + z) * PAGE;
    var q := inside / size;
    assert inside == size * q;
    ModShift(base, size, q);
    assert h * PAGE + Address(z, size, k) == base + inside;
  }

  lemma ModShift(n: nat, d: nat, q: nat)
    requires d > 0
    ensures (n + d * q) % d == n % d
  {
    assert n + d * q == (n / d + q) * d + n % d;
    DivUnique(n + d * q, d, n / d + q, n % d);
  }

  /** Up to the size of a page every such chunk is aligned. */
  lemma SmallPowersAligned(h: nat, z: nat, size: nat, k: nat)
    requires 0 < size <= PAGE && PowerOfTwo(size)
    ensures (h * PAGE + Address(z, size, k)) % size == 0
  {
    AlignedIfZoneIs(h, z, size, k);
    assert PowerOfTwo(PAGE);
    PowersDivide(size, PAGE);
    MultipleOf(h + z, PAGE, size);
  }

  lemma MultipleOf(n: nat, p: nat, d: nat)
    requires d > 0 && p % d == 0
    ensures (n * p) % d == 0
  {
    var q := p / d;
    assert p == q * d;
    TimesRegroup(n, q, d);
    MultipleMod(n * q, d);
  }

  lemma TimesRegroup(a: nat, b: nat, c: nat)
    ensures a * (b * c) == (a * b) * c
  {
  }

  /** A larger one only if its page is a multiple of its size in pages; and so for large blocks,
      which begin with page r. */
  lemma BigPowersAligned(h: nat, z: nat, size: nat, k: nat)
    requires PAGE <= size && PowerOfTwo(size)
    ensures (h * PAGE + Address(z, size, k)) % size == 0 <==> (h + z) % (size / PAGE) == 0
    ensures ((h + z) * PAGE) % size == 0 <==> (h + z) % (size / PAGE) == 0
  {
    AlignedIfZoneIs(h, z, size, k);
    assert PowerOfTwo(PAGE);
    PowersDivide(PAGE, size);
    PagesMod(h + z, size / PAGE);
  }

  lemma PagesMod(n: nat, m: nat)
    requires m > 0
    ensures (n * PAGE) % (m * PAGE) == (n % m) * PAGE
  {
    var q, r := n / m, n % m;
    assert n * PAGE == q * (m * PAGE) + r * PAGE;
    DivUnique(n * PAGE, m * PAGE, q, r * PAGE);
  }

  /** So a chunk of 8192 bytes in the first zone of a small heap, which has zones of 8 pages and
      one page of descriptors in front, is not aligned to its size. */
  lemma OddPageMisaligned()
    ensures PowerOfTwo(8192) && ChunkSize(63) == 8192 && Served(8, 8192) && Count(8, 8192) >= 2
    ensures Address(1, 8192, 0) % 8192 != 0
  {
    assert PowerOfTwo(8192) && Offset(8192) == 8192;
  }

  /** The addresses of the first n chunks. */
  ghost function Chunks(z: nat, size: nat, n: nat): set<nat>
    requires size > 0
  {
    if n == 0 then {} else Chunks(z, size, n - 1) + {Address(z, size, n - 1)}
  }

  lemma {:induction false} ChunkIndex(z: nat, size: nat, n: nat, a: nat) returns (k: nat)
    requires size > 0 && a in Chunks(z, size, n)
    ensures k < n && a == Address(z, size, k)
  {
    if a == Address(z, size, n - 1) {
      k := n - 1;
    } else {
      k := ChunkIndex(z, size, n - 1, a);
    }
  }

  lemma {:induction false} NextChunkNew(z: nat, size: nat, n: nat)
    requires size > 0
    ensures Address(z, size, n) !in Chunks(z, size, n)
  {
    forall a | a in Chunks(z, size, n) ensures a != Address(z, size, n) {
      var k := ChunkIndex(z, size, n, a);
      ChunksApart(z, size, k, n);
    }
  }

  lemma {:induction false} ChunksCount(z: nat, size: nat, n: nat)
    requires size > 0
    ensures |Chunks(z, size, n)| == n
  {
    if n > 0 {
      ChunksCount(z, size, n - 1);
      NextChunkNew(z, size, n - 1);
    }
  }
}
