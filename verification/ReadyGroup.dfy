/** The ready group (scheduler.c) and its first-set-bit lookup (kservice.c): bit p of one
    word says that some thread of priority p is ready. */
module ReadyGroup {
  type Word = bv32

  const PRIORITY_MAX: Word := 32

  function Mask(p: Word): Word
    requires p < PRIORITY_MAX
  {
    1 << p
  }

  predicate HasBit(g: Word, p: Word)
    requires p < PRIORITY_MAX
  {
    g & Mask(p) != 0
  }

  // The lookup table, row by row

  function FirstColumn(row: Word): Word {
    if row & 1 != 0 then 4
    else if row & 2 != 0 then 5
    else if row & 4 != 0 then 6
    else if row & 8 != 0 then 7
    else 0
  }

  function OtherColumns(column: Word): Word {
    if column == 8 then 3
    else if column == 4 || column == 12 then 2
    else if column == 2 || column == 6 || column == 10 || column == 14 then 1
    else 0
  }

  /** __lowest_bit_bitmap: all rows are alike but for their first entry. */
  function LowestBitmap(i: Word): Word {
    if i & 0xf == 0 then FirstColumn(i >> 4) else OtherColumns(i & 0xf)
  }

  /** k is the lowest set bit of g. */
  predicate IsLowest(g: Word, k: Word) {
    k < PRIORITY_MAX && g & (1 << k) != 0 && g & ((1 << k) - 1) == 0
  }

  lemma BitmapIsLowest(i: Word)
    requires 0 < i < 256
    ensures IsLowest(i, LowestBitmap(i)) && LowestBitmap(i) < 8
  {
  }

  /** __rt_ffs: bits count from 1. */
  function Ffs(value: Word): Word {
    if value == 0 then 0
    else if value & 0xff != 0 then LowestBitmap(value & 0xff) + 1
    else if value & 0xff00 != 0 then LowestBitmap((value & 0xff00) >> 8) + 9
    else if value & 0xff0000 != 0 then LowestBitmap((value & 0xff0000) >> 16) + 17
    else LowestBitmap((value & 0xff000000) >> 24) + 25
  }

  lemma ShiftLowest0(g: Word, k: Word)
    requires IsLowest(g & 0xff, k) && k < 8
    ensures IsLowest(g, k)
  {
  }

  lemma ShiftLowest1(g: Word, k: Word)
    requires g & 0xff == 0 && IsLowest((g & 0xff00) >> 8, k) && k < 8
    ensures IsLowest(g, k + 8)
  {
  }

  lemma ShiftLowest2(g: Word, k: Word)
    requires g & 0xff == 0 && g & 0xff00 == 0 && IsLowest((g & 0xff0000) >> 16, k) && k < 8
    ensures IsLowest(g, k + 16)
  {
  }

  lemma ShiftLowest3(g: Word, k: Word)
    requires g & 0xff == 0 && g & 0xff00 == 0 && g & 0xff0000 == 0 && IsLowest((g & 0xff000000) >> 24, k) && k < 8
    ensures IsLowest(g, k + 24)
  {
  }

  lemma BelowLowest(g: Word, k: Word, q: Word)
    requires IsLowest(g, k) && q < k
    ensures g & (1 << q) == 0
  {
  }

  lemma SetOther(g: Word, m: Word, n: Word)
    requires m & n == 0
    ensures (g | m) & n == g & n
  {
  }

  lemma SetSame(g: Word, m: Word)
    requires m != 0
    ensures (g | m) & m != 0
  {
  }

  lemma MasksApart(p: Word, q: Word)
    requires p < PRIORITY_MAX && q < PRIORITY_MAX
    ensures Mask(p) & Mask(q) != 0 <==> p == q
    ensures Mask(p) != 0
  {
  }

  lemma SetBitSame(g: Word, p: Word)
    requires p < PRIORITY_MAX
    ensures HasBit(g | Mask(p), p)
  {
    MasksApart(p, p);
    SetSame(g, Mask(p));
  }

  lemma SetBitOther(g: Word, p: Word, q: Word)
    requires p < PRIORITY_MAX && q < PRIORITY_MAX && p != q
    ensures HasBit(g | Mask(p), q) == HasBit(g, q)
  {
    MasksApart(p, q);
    SetOther(g, Mask(p), Mask(q));
  }

  lemma ClearBit(g: Word, p: Word, q: Word)
    requires p < PRIORITY_MAX && q < PRIORITY_MAX
    ensures HasBit(g & !Mask(p), q) <==> p != q && HasBit(g, q)
  {
  }

  /** The lookup finds the smallest priority whose bit is set. */
  lemma FfsIsMinimum(g: Word)
    requires g != 0
    ensures var k := Ffs(g) - 1; k < PRIORITY_MAX && HasBit(g, k) && IsLowest(g, k)
  {
    if g & 0xff != 0 {
      BitmapIsLowest(g & 0xff);
      ShiftLowest0(g, LowestBitmap(g & 0xff));
    } else if g & 0xff00 != 0 {
      BitmapIsLowest((g & 0xff00) >> 8);
      ShiftLowest1(g, LowestBitmap((g & 0xff00) >> 8));
    } else if g & 0xff0000 != 0 {
      BitmapIsLowest((g & 0xff0000) >> 16);
      ShiftLowest2(g, LowestBitmap((g & 0xff0000) >> 16));
    } else {
      BitmapIsLowest((g & 0xff000000) >> 24);
      ShiftLowest3(g, LowestBitmap((g & 0xff000000) >> 24));
    }
  }

  // The word as the set of priorities it stands for

  /** A thread priority; 0 is the most urgent. */
  datatype Priority = Priority(w: Word)

  predicate Legal(p: Priority) {
    p.w < PRIORITY_MAX
  }

  ghost predicate InGroup(g: Word, p: Priority) {
    Legal(p) && HasBit(g, p.w)
  }

  /** The priorities whose bit is set. */
  ghost function Bits(g: Word): iset<Priority> {
    iset p: Priority | InGroup(g, p)
  }

  function With(g: Word, mask: Word): Word {
    g | mask
  }

  function Less(g: Word, mask: Word): Word {
    g & !mask
  }

  lemma WordWith(g: Word, p: Word)
    requires p < PRIORITY_MAX
    ensures forall q: Word :: q < PRIORITY_MAX ==> (HasBit(With(g, Mask(p)), q) <==> p == q || HasBit(g, q))
  {
    forall q: Word | q < PRIORITY_MAX ensures HasBit(With(g, Mask(p)), q) <==> p == q || HasBit(g, q) {
      if p == q {
        SetBitSame(g, p);
      } else {
        SetBitOther(g, p, q);
      }
    }
  }

  lemma WordLess(g: Word, p: Word)
    requires p < PRIORITY_MAX
    ensures forall q: Word :: q < PRIORITY_MAX ==> (HasBit(Less(g, Mask(p)), q) <==> p != q && HasBit(g, q))
  {
    forall q: Word | q < PRIORITY_MAX ensures HasBit(Less(g, Mask(p)), q) <==> p != q && HasBit(g, q) {
      ClearBit(g, p, q);
    }
  }

  lemma BitsWith(g: Word, p: Priority)
    requires Legal(p)
    ensures Bits(With(g, Mask(p.w))) == Bits(g) + iset{p}
  {
    WordWith(g, p.w);
  }

  lemma BitsLess(g: Word, p: Priority)
    requires Legal(p)
    ensures Bits(Less(g, Mask(p.w))) == Bits(g) - iset{p}
  {
    WordLess(g, p.w);
  }

  lemma NoBits(p: Word)
    requires p < PRIORITY_MAX
    ensures !HasBit(0, p)
  {
  }

  lemma BitsZero()
    ensures Bits(0) == iset{}
  {
    forall p: Word | p < PRIORITY_MAX ensures !HasBit(0, p) {
      NoBits(p);
    }
  }

  lemma NoneBelow(g: Word, k: Word, q: Word)
    requires IsLowest(g, k) && q < PRIORITY_MAX && HasBit(g, q)
    ensures k <= q
  {
    if q < k {
      BelowLowest(g, k, q);
    }
  }

  lemma NothingBelow(g: Word, k: Word)
    requires IsLowest(g, k)
    ensures forall q: Word :: q < PRIORITY_MAX && HasBit(g, q) ==> k <= q
  {
    forall q: Word | q < PRIORITY_MAX && HasBit(g, q) ensures k <= q {
      NoneBelow(g, k, q);
    }
  }

  lemma LeastIsMostUrgent(g: Word, k: Word)
    requires k < PRIORITY_MAX && HasBit(g, k)
    requires forall q: Word :: q < PRIORITY_MAX && HasBit(g, q) ==> k <= q
    ensures Priority(k) in Bits(g)
    ensures forall q: Priority :: q in Bits(g) ==> k <= q.w
  {
  }

  /** __rt_ffs minus one is the most urgent priority in the group. */
  lemma FfsIsMostUrgent(g: Word)
    requires g != 0
    ensures Priority(Ffs(g) - 1) in Bits(g)
    ensures forall q: Priority :: q in Bits(g) ==> Ffs(g) - 1 <= q.w
  {
    FfsIsMinimum(g);
    NothingBelow(g, Ffs(g) - 1);
    LeastIsMostUrgent(g, Ffs(g) - 1);
  }
}
