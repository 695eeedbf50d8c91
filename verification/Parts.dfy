/** The part-count arithmetic of multipart initiation, on wrapping 64-bit integers. */
module Parts {
  const MIB := 0x10_0000
  const MIN_PART_SIZE := 5 * MIB
  const MAX_PART_SIZE := 5 * 0x4000_0000
  const DEFAULT_PART_SIZE := 8 * MIB
  const MAX_PARTS := 10000

  type Int64 = n: int | -0x8000_0000_0000_0000 <= n <= 0x7FFF_FFFF_FFFF_FFFF

  function Wrap64(n: int): (w: Int64) {
    (n + 0x8000_0000_0000_0000) % 0x1_0000_0000_0000_0000 - 0x8000_0000_0000_0000
  }

  function Wrap32(n: int): int {
    (n + 0x8000_0000) % 0x1_0000_0000 - 0x8000_0000
  }

  /** Go's integer division truncates toward zero. */
  function TruncDiv(a: int, b: int): int
    requires b > 0
  {
    if a >= 0 then a / b else -((-a) / b)
  }

  /** The part size an initiation works with: 8 MiB unless the caller asks for another. */
  function EffectivePartSize(requested: Int64): Int64 {
    if requested == 0 then DEFAULT_PART_SIZE else requested
  }

  predicate LegalPartSize(partSize: int) {
    MIN_PART_SIZE <= partSize <= MAX_PART_SIZE
  }

  /** The count as the code computes it, every intermediate result wrapped. */
  function ComputedCount(size: Int64, partSize: Int64): int
    requires partSize > 0
  {
    TruncDiv(Wrap64(Wrap64(size + partSize) - 1), partSize)
  }

  predicate CountAccepted(size: Int64, partSize: Int64)
    requires partSize > 0
  {
    size > 0 && 1 <= ComputedCount(size, partSize) <= MAX_PARTS
  }

  /** The true number of parts: the least n with size <= n * partSize. */
  predicate IsCeiling(n: int, size: int, partSize: int) {
    (n - 1) * partSize < size <= n * partSize
  }

  lemma QuotientBounds(a: int, b: int)
    requires b > 0
    ensures a / b * b <= a < (a / b + 1) * b
  {
    assert a == a / b * b + a % b;
  }

  lemma ScaleKeepsOrder(n: int, m: int, scale: int)
    requires n <= m && scale >= 0
    ensures n * scale <= m * scale
  {
    assert m * scale == n * scale + (m - n) * scale;
  }

  lemma CeilingIsUnique(n: int, m: int, size: int, partSize: int)
    requires partSize > 0 && IsCeiling(n, size, partSize) && IsCeiling(m, size, partSize)
    ensures n == m
  {
    if n < m {
      ScaleKeepsOrder(n, m - 1, partSize);
    } else if m < n {
      ScaleKeepsOrder(m, n - 1, partSize);
    }
  }

  /** Adding a legal part size overflows by less than one turn. */
  lemma WrappedSum(size: Int64, partSize: Int64)
    requires size > 0 && LegalPartSize(partSize)
    ensures var sum := size + partSize - 1;
            Wrap64(Wrap64(size + partSize) - 1) ==
            if sum <= 0x7FFF_FFFF_FFFF_FFFF then sum else sum - 0x1_0000_0000_0000_0000
  {
  }

  lemma NegativeCount(sum: int, partSize: int)
    requires sum < 0 < partSize
    ensures TruncDiv(sum, partSize) <= 0
  {
    QuotientBounds(-sum, partSize);
    if -sum / partSize < 0 {
      ScaleKeepsOrder(-sum / partSize + 1, 0, partSize);
    }
  }

  /** Wrap-around cannot fool the test: a size is accepted exactly when it is positive and
      its true part count is in range, the computed count is then that true count, and the
      narrowing to 32 bits keeps it. */
  lemma CountTestIsExact(size: Int64, partSize: Int64, n: int)
    requires LegalPartSize(partSize) && IsCeiling(n, size, partSize)
    ensures CountAccepted(size, partSize) <==> size > 0 && 1 <= n <= MAX_PARTS
    ensures CountAccepted(size, partSize) ==> ComputedCount(size, partSize) == n == Wrap32(n)
  {
    if size > 0 {
      var sum := size + partSize - 1;
      WrappedSum(size, partSize);
      if sum <= 0x7FFF_FFFF_FFFF_FFFF {
        QuotientBounds(sum, partSize);
        CeilingIsUnique(sum / partSize, n, size, partSize);
      } else {
        NegativeCount(sum - 0x1_0000_0000_0000_0000, partSize);
        if n <= MAX_PARTS {
          ScaleKeepsOrder(n, MAX_PARTS, partSize);
        }
      }
    }
  }

  /** First byte of part `i`, counted from 1. */
  function PartStart(i: int, partSize: int): int {
    (i - 1) * partSize
  }

  function PartLength(i: int, size: int, partSize: int, count: int): int {
    if i < count then partSize else size - PartStart(count, partSize)
  }

  /** Parts 1..count tile [0, size): the last is 1..partSize bytes long, and every byte lies
      in exactly one part. */
  lemma PartsTile(size: Int64, partSize: Int64)
    requires LegalPartSize(partSize) && CountAccepted(size, partSize)
    ensures var count := ComputedCount(size, partSize);
            && 1 <= PartLength(count, size, partSize, count) <= partSize
            && PartStart(count, partSize) + PartLength(count, size, partSize, count) == size
            && forall b :: 0 <= b < size ==>
                 var i := b / partSize + 1;
                 && 1 <= i <= count
                 && InPart(b, i, size, partSize, count)
                 && forall j :: 1 <= j <= count && InPart(b, j, size, partSize, count) ==> j == i
  {
    var n := (size - 1) / partSize + 1;
    QuotientBounds(size - 1, partSize);
    CountTestIsExact(size, partSize, n);
    forall b | 0 <= b < size
      ensures var i := b / partSize + 1;
              && 1 <= i <= n
              && InPart(b, i, size, partSize, n)
              && forall j :: 1 <= j <= n && InPart(b, j, size, partSize, n) ==> j == i
    {
      ByteInOnePart(b, size, partSize, n);
    }
  }

  predicate InPart(b: int, i: int, size: int, partSize: int, count: int) {
    PartStart(i, partSize) <= b < PartStart(i, partSize) + PartLength(i, size, partSize, count)
  }

  lemma ByteInOnePart(b: int, size: int, partSize: int, n: int)
    requires 0 <= b < size && partSize > 0 && IsCeiling(n, size, partSize)
    ensures var i := b / partSize + 1;
            && 1 <= i <= n
            && InPart(b, i, size, partSize, n)
            && forall j :: 1 <= j <= n && InPart(b, j, size, partSize, n) ==> j == i
  {
    var i := b / partSize + 1;
    QuotientBounds(b, partSize);
    if i > n {
      ScaleKeepsOrder(n, i - 1, partSize);
    }
    forall j | 1 <= j <= n && InPart(b, j, size, partSize, n)
      ensures j == i
    {
      assert IsCeiling(j, b + 1, partSize);
      CeilingIsUnique(i, j, b + 1, partSize);
    }
  }
}
