/** The layout of the shared memory segment: header, per-process buffers, extra space. */
module Layout {

  // ---------------------------------------------------------------- size_t and its bits

  const SIZE_BITS: nat := 64
  const SIZE_LIMIT: nat := 0x1_0000_0000_0000_0000

  function Pow2(k: nat): (p: nat)
    ensures p >= 1
  {
    if k == 0 then 1 else 2 * Pow2(k - 1)
  }

  /** The operator & on the binary digits of two natural numbers. */
  function BitAnd(x: nat, y: nat): nat {
    if x == 0 || y == 0 then 0
    else (if x % 2 == 1 && y % 2 == 1 then 1 else 0) + 2 * BitAnd(x / 2, y / 2)
  }

  /** The operator ~ on size_t. */
  function Complement(x: nat): nat
    requires x < SIZE_LIMIT
  {
    SIZE_LIMIT - 1 - x
  }

  /** The sum of two numbers of type size_t, as size_t. */
  function Wrapped(x: nat): nat
    requires x < 2 * SIZE_LIMIT
  {
    if x < SIZE_LIMIT then x else x - SIZE_LIMIT
  }

  function AlignTo(size: nat, alignment: nat): nat
    requires size < SIZE_LIMIT && 1 <= alignment < SIZE_LIMIT
  {
    BitAnd(Wrapped(size + alignment - 1), Complement(alignment - 1))
  }

  /** Cutting off the low k of w bits. */
  lemma {:induction false} MaskClearsLowBits(x: nat, w: nat, k: nat)
    requires x < Pow2(w) && k <= w
    ensures Pow2(k) <= Pow2(w)
    ensures BitAnd(x, Pow2(w) - Pow2(k)) == x - x % Pow2(k)
  {
    if k == 0 {
      FullMask(x, w);
    } else {
      MaskClearsLowBits(x / 2, w - 1, k - 1);
      var half, mask := Pow2(k - 1), Pow2(w - 1) - Pow2(k - 1);
      assert Pow2(w) - Pow2(k) == 2 * mask && Pow2(k) == 2 * half;
      DoubleMod(x, half);
      EvenMask(x, mask);
    }
  }

  lemma EvenMask(x: nat, mask: nat)
    ensures BitAnd(x, 2 * mask) == 2 * BitAnd(x / 2, mask)
  {
    LowDigit(mask);
  }

  lemma SmallMod(x: nat, m: nat)
    requires x < m
    ensures x % m == 0 + x
  {
  }

  lemma DoubleMod(x: nat, m: nat)
    requires m >= 1
    ensures x % (2 * m) == 2 * (x / 2 % m) + x % 2
  {
    var q, r := x / 2 / m, x / 2 % m;
    assert x / 2 == q * m + r;
    assert x == (2 * m) * q + (2 * r + x % 2);
    ModUnique(x, 2 * m, q, 2 * r + x % 2);
  }

  lemma {:induction false} NextMultiple(a: nat, p: nat, q: nat)
    requires p < q
    ensures a * p + a <= a * q
    decreases q
  {
    assert a * q == a * (q - 1) + a;
    if p + 1 < q {
      NextMultiple(a, p, q - 1);
    }
  }

  lemma ModUnique(x: nat, m: nat, q: nat, r: nat)
    requires m >= 1 && r < m && x == m * q + r
    ensures x % m == r && x / m == q
  {
    var q', r' := x / m, x % m;
    assert x == m * q' + r';
    if q' < q {
      NextMultiple(m, q', q);
    } else if q < q' {
      NextMultiple(m, q, q');
    }
  }

  lemma LowDigit(y: nat)
    ensures (2 * y + 1) % 2 == 1 && (2 * y + 1) / 2 == y
    ensures (2 * y) % 2 == 0 && (2 * y) / 2 == y
  {
  }

  lemma {:induction false} FullMask(x: nat, w: nat)
    requires x < Pow2(w)
    ensures BitAnd(x, Pow2(w) - 1) == x
  {
    if w > 0 {
      FullMask(x / 2, w - 1);
      var half := Pow2(w - 1);
      assert Pow2(w) - 1 == 2 * (half - 1) + 1;
      LowDigit(half - 1);
      if x > 0 {
        assert BitAnd(x, 2 * (half - 1) + 1) == x % 2 + 2 * BitAnd(x / 2, half - 1);
      }
    }
  }

  predicate Aligned(x: nat, alignment: nat)
    requires alignment >= 1
  {
    x % alignment == 0
  }

  /** r is the least multiple of alignment that is not below size. */
  predicate LeastMultiple(r: nat, size: nat, alignment: nat)
    requires alignment >= 1
  {
    && size <= r && Aligned(r, alignment)
    && forall m: nat :: size <= m && Aligned(m, alignment) ==> r <= m
  }

  lemma SizeLimitIsPower()
    ensures SIZE_LIMIT == Pow2(SIZE_BITS)
  {
    assert Pow2(32) == 0x1_0000_0000 by {
      MiddlePower();
      Pow2Adds(16, 16);
    }
    Pow2Adds(32, 32);
  }

  lemma MiddlePower()
    ensures Pow2(16) == 0x1_0000
  {
    SmallPower();
    Pow2Adds(8, 8);
  }

  lemma SmallPower()
    ensures Pow2(8) == 256
  {
    assert Pow2(2) == 2 * Pow2(1) && Pow2(1) == 2 * Pow2(0);
    Pow2Adds(2, 2);
    Pow2Adds(4, 4);
  }

  lemma {:induction false} Pow2Adds(a: nat, b: nat)
    ensures Pow2(a + b) == Pow2(a) * Pow2(b)
  {
    if a > 0 {
      Pow2Adds(a - 1, b);
      assert Pow2(a + b) == 2 * Pow2(a - 1 + b);
    }
  }

  lemma AlignToValue(size: nat, a: nat, w: nat, k: nat)
    requires SIZE_LIMIT == Pow2(w) && k < w && a == Pow2(k)
    requires size < SIZE_LIMIT
    ensures 1 <= a < SIZE_LIMIT
    ensures AlignTo(size, a) == (var x := Wrapped(size + a - 1); x - x % a)
  {
    Pow2Grows(k, w);
    MaskClearsLowBits(Wrapped(size + a - 1), w, k);
  }

  lemma {:induction false} Pow2Grows(k: nat, w: nat)
    requires k < w
    ensures Pow2(k) < Pow2(w)
    decreases w
  {
    if k < w - 1 {
      Pow2Grows(k, w - 1);
    }
  }

  /** The bit trick gives the least multiple of a power of two not below size exactly if the
      addition does not overflow; if it does, the result is 0. */
  lemma AlignToIsLeastMultiple(size: nat, alignment: nat, k: nat)
    requires size < SIZE_LIMIT && k < SIZE_BITS && alignment == Pow2(k)
    ensures alignment < SIZE_LIMIT
    ensures LeastMultiple(AlignTo(size, alignment), size, alignment) <==> size + alignment - 1 < SIZE_LIMIT
    ensures size + alignment - 1 >= SIZE_LIMIT ==> AlignTo(size, alignment) == 0
  {
    SizeLimitIsPower();
    AlignToValue(size, alignment, SIZE_BITS, k);
    var x := size + alignment - 1;
    if x < SIZE_LIMIT {
      LeastMultipleBelow(size, alignment);
    } else {
      SmallMod(x - SIZE_LIMIT, alignment);
    }
  }

  lemma LeastMultipleBelow(size: nat, a: nat)
    requires a >= 1
    ensures LeastMultiple(size + a - 1 - (size + a - 1) % a, size, a)
  {
    var x := size + a - 1;
    var q := x / a;
    assert x - x % a == a * q;
    ModUnique(a * q, a, q, 0);
    forall m: nat | size <= m && Aligned(m, a)
      ensures a * q <= m
    {
      NoMultipleBelow(size, a, q, m);
    }
  }

  lemma NoMultipleBelow(size: nat, a: nat, q: nat, m: nat)
    requires a >= 1 && a * q <= size + a - 1 && size <= m && Aligned(m, a)
    ensures a * q <= m
  {
    var p := m / a;
    assert m == a * p;
    if p < q {
      NextMultiple(a, p, q);
    }
  }

  // ---------------------------------------------------------------- the segment

  const PTRDIFF_LIMIT: nat := 0x8000_0000_0000_0000

  /** sizeof and alignof of the structures, as the compiler chose them; the alignments are
      powers of two with these exponents. */
  datatype Platform = Platform(headerSize: nat, bufferSize: nat, bufferAlignBits: nat, maxAlignBits: nat) {
    predicate Ok() { headerSize > 0 && bufferSize > 0 && bufferAlignBits < SIZE_BITS && maxAlignBits < SIZE_BITS }
    function BufferAlign(): nat { Pow2(bufferAlignBits) }
    function MaxAlign(): nat { Pow2(maxAlignBits) }
  }

  datatype Option<T> = None | Some(value: T)

  /** What goes into the header and what every process computes from it, as offsets. */
  datatype Header = Header(nofprocesses: nat, bufsize: nat, extraSize: nat, extraOffset: nat)
  datatype Domain = Domain(nofprocesses: nat, bufsize: nat, mapped: nat, firstBuffer: nat, stride: nat,
                           extraSize: nat, extraSpace: Option<nat>)

  /** AlignTo on a sum that does not overflow. */
  predicate Alignable(size: nat, alignment: nat) {
    1 <= alignment < SIZE_LIMIT && size + alignment - 1 < SIZE_LIMIT
  }

  function FirstBuffer(p: Platform): nat
    requires Alignable(p.headerSize, p.BufferAlign())
  {
    AlignTo(p.headerSize, p.BufferAlign())
  }

  function Stride(p: Platform, bufsize: nat): nat
    requires Alignable(p.bufferSize + bufsize, p.BufferAlign())
  {
    AlignTo(p.bufferSize + bufsize, p.BufferAlign())
  }

  function BuffersEnd(p: Platform, bufsize: nat, n: nat): nat
    requires Alignable(p.headerSize, p.BufferAlign()) && Alignable(p.bufferSize + bufsize, p.BufferAlign())
  {
    FirstBuffer(p) + Stride(p, bufsize) * n
  }

  /** Nothing overflows in the size computations, neither as size_t nor as ptrdiff_t. */
  predicate Fits(p: Platform, bufsize: nat, n: nat, extra: nat) {
    && p.Ok()
    && Alignable(p.headerSize, p.BufferAlign()) && Alignable(p.bufferSize + bufsize, p.BufferAlign())
    && BuffersEnd(p, bufsize, n) + p.MaxAlign() + extra < PTRDIFF_LIMIT
  }

  function MemSize(p: Platform, bufsize: nat, n: nat, extra: nat): nat
    requires Fits(p, bufsize, n, extra)
  {
    if extra > 0 then AlignTo(BuffersEnd(p, bufsize, n), p.MaxAlign()) + extra
    else BuffersEnd(p, bufsize, n)
  }

  lemma AlignsUp(size: nat, alignment: nat, k: nat)
    requires k < SIZE_BITS && alignment == Pow2(k) && Alignable(size, alignment)
    ensures LeastMultiple(AlignTo(size, alignment), size, alignment)
    ensures AlignTo(size, alignment) < size + alignment
  {
    AlignToIsLeastMultiple(size, alignment, k);
    SizeLimitIsPower();
    AlignToValue(size, alignment, SIZE_BITS, k);
  }

  lemma MemSizeCovers(p: Platform, bufsize: nat, n: nat, extra: nat)
    requires Fits(p, bufsize, n, extra)
    ensures BuffersEnd(p, bufsize, n) + extra <= MemSize(p, bufsize, n, extra) < PTRDIFF_LIMIT
    ensures extra > 0 ==> Aligned(MemSize(p, bufsize, n, extra) - extra, p.MaxAlign())
  {
    AlignsUp(BuffersEnd(p, bufsize, n), p.MaxAlign(), p.maxAlignBits);
  }

  /** init_header together with the rest of sd_setup_with_extra_space */
  function Setup(p: Platform, bufsize: nat, n: nat, extra: nat): (r: (Header, Domain))
    requires Fits(p, bufsize, n, extra)
  {
    MemSizeCovers(p, bufsize, n, extra);
    var size := MemSize(p, bufsize, n, extra);
    var header := Header(n, bufsize, extra, size - extra);
    (header, Domain(n, bufsize, size, FirstBuffer(p), Stride(p, bufsize), extra,
                    if extra > 0 then Some(header.extraOffset) else None))
  }

  /** sd_connect, which knows nothing but the header; it gives up again when sd_shutdown has
      been called. */
  function Connect(p: Platform, header: Header, rank: nat, terminating: bool): Option<Domain>
    requires Fits(p, header.bufsize, header.nofprocesses, header.extraSize)
  {
    if rank >= header.nofprocesses || terminating then None
    else
      var size := MemSize(p, header.bufsize, header.nofprocesses, header.extraSize);
      Some(Domain(header.nofprocesses, header.bufsize, size, FirstBuffer(p), Stride(p, header.bufsize), header.extraSize,
                  if header.extraSize > 0 then Some(header.extraOffset) else None))
  }

  function GetBuffer(sd: Domain, id: nat): Option<nat> {
    if id >= sd.nofprocesses then None else Some(sd.firstBuffer + sd.stride * id)
  }

  /** A part of the segment: its first byte and the byte behind it. */
  datatype Part = Part(start: nat, end: nat)

  predicate Before(a: Part, b: Part) { a.start <= a.end <= b.start <= b.end }

  function HeaderPart(p: Platform): Part { Part(0, p.headerSize) }

  function StructPart(p: Platform, sd: Domain, id: nat): Part
    requires GetBuffer(sd, id).Some?
  {
    var start := GetBuffer(sd, id).value;
    Part(start, start + p.bufferSize)
  }

  function PayloadPart(p: Platform, sd: Domain, id: nat): Part
    requires GetBuffer(sd, id).Some?
  {
    var start := GetBuffer(sd, id).value + p.bufferSize;
    Part(start, start + sd.bufsize)
  }

  function ExtraPart(sd: Domain): Part {
    match sd.extraSpace
    case Some(offset) => Part(offset, offset + sd.extraSize)
    case None => Part(sd.mapped, sd.mapped)
  }

  /** For every process that can connect, the segment holds, in this order and without overlap,
      the header, for every id the buffer with its payload, and the extra space, each aligned
      as its type demands; and it ends within what is mapped. */
  lemma SegmentIsLaidOut(p: Platform, bufsize: nat, n: nat, extra: nat, i: nat, j: nat)
    requires Fits(p, bufsize, n, extra) && i <= j < n
    ensures
      var sd := Setup(p, bufsize, n, extra).1;
      && GetBuffer(sd, i).Some? && GetBuffer(sd, j).Some? && GetBuffer(sd, n).None?
      && Before(HeaderPart(p), StructPart(p, sd, i))
      && Before(StructPart(p, sd, i), PayloadPart(p, sd, i))
      && (i < j ==> Before(PayloadPart(p, sd, i), StructPart(p, sd, j)))
      && Before(PayloadPart(p, sd, j), ExtraPart(sd)) && ExtraPart(sd).end == sd.mapped < PTRDIFF_LIMIT
      && Aligned(GetBuffer(sd, i).value, p.BufferAlign())
      && (extra > 0 ==> Aligned(ExtraPart(sd).start, p.MaxAlign()))
  {
    BuffersAreLaidOut(p, bufsize, n, i, j);
    MemSizeCovers(p, bufsize, n, extra);
  }

  /** The same in numbers, for all but the extra space. */
  lemma BuffersAreLaidOut(p: Platform, bufsize: nat, n: nat, i: nat, j: nat)
    requires Fits(p, bufsize, n, 0) && i <= j < n
    ensures
      var first, stride := FirstBuffer(p), Stride(p, bufsize);
      && p.headerSize <= first && p.bufferSize + bufsize <= stride
      && first <= first + stride * i && Aligned(first + stride * i, p.BufferAlign())
      && (i < j ==> first + stride * i + stride <= first + stride * j)
      && first + stride * j + stride <= BuffersEnd(p, bufsize, n)
  {
    FirstAndStride(p, bufsize);
    BuffersInOrder(FirstBuffer(p), Stride(p, bufsize), i, j, n);
    MultiplesAdd(FirstBuffer(p), Stride(p, bufsize), i, p.BufferAlign());
  }

  lemma FirstAndStride(p: Platform, bufsize: nat)
    requires p.Ok() && Alignable(p.headerSize, p.BufferAlign()) && Alignable(p.bufferSize + bufsize, p.BufferAlign())
    ensures p.headerSize <= FirstBuffer(p) && Aligned(FirstBuffer(p), p.BufferAlign())
    ensures p.bufferSize + bufsize <= Stride(p, bufsize) && Aligned(Stride(p, bufsize), p.BufferAlign())
  {
    AlignsUp(p.headerSize, p.BufferAlign(), p.bufferAlignBits);
    AlignsUp(p.bufferSize + bufsize, p.BufferAlign(), p.bufferAlignBits);
  }

  lemma BuffersInOrder(first: nat, stride: nat, i: nat, j: nat, n: nat)
    requires i <= j < n
    ensures first <= first + stride * i
    ensures i < j ==> first + stride * i + stride <= first + stride * j
    ensures first + stride * j + stride <= first + stride * n
  {
    NextMultiple(stride, j, n);
    if i < j {
      NextMultiple(stride, i, j);
    }
  }

  lemma MultiplesAdd(x: nat, y: nat, i: nat, a: nat)
    requires a >= 1 && Aligned(x, a) && Aligned(y, a)
    ensures Aligned(x + y * i, a)
  {
    var q, r := x / a, y / a;
    assert x == a * q && y == a * r;
    assert y * i == a * (r * i);
    assert x + y * i == a * (q + r * i);
    ModUnique(x + y * i, a, q + r * i, 0);
  }

  /** Header and domain carry what the domain was set up with; every id below nofprocesses and no
      other has a buffer, with a payload of exactly bufsize bytes; and exactly if extra space was
      asked for there is some, of this size and at the offset in the header. */
  lemma SetupKeepsParameters(p: Platform, bufsize: nat, n: nat, extra: nat)
    requires Fits(p, bufsize, n, extra)
    ensures
      var (header, sd) := Setup(p, bufsize, n, extra);
      && header.nofprocesses == sd.nofprocesses == n
      && header.bufsize == sd.bufsize == bufsize
      && header.extraSize == sd.extraSize == extra
      && (sd.extraSpace.Some? <==> extra > 0)
      && (extra > 0 ==> sd.extraSpace == Some(header.extraOffset))
      && ExtraPart(sd).end - ExtraPart(sd).start == extra
      && (forall id: nat :: GetBuffer(sd, id).Some? <==> id < n)
      && (forall id: nat :: id < n ==> PayloadPart(p, sd, id).end - PayloadPart(p, sd, id).start == bufsize)
  {
    MemSizeCovers(p, bufsize, n, extra);
  }

  /** A process connects exactly if its rank is below nofprocesses and the domain is not
      terminating, and then computes the very offsets of the creator from the header alone. */
  lemma ConnectorAgrees(p: Platform, bufsize: nat, n: nat, extra: nat, rank: nat, terminating: bool)
    requires Fits(p, bufsize, n, extra)
    ensures var (header, sd) := Setup(p, bufsize, n, extra);
            Connect(p, header, rank, terminating) == if rank < n && !terminating then Some(sd) else None
  {
  }
}
