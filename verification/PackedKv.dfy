/** The strided view that exposes one kvcached buffer as vLLM's packed key/value cache. */
module PackedKv {
  import opened Collections

  datatype ShapeError = LayoutNotNhd | BlockSizeMismatch | OddPackedHead

  datatype KernelError = KernelDoesNotDivideBlock

  /** A four-dimensional strided view: `as_strided` with these shapes and strides, in elements. */
  datatype StridedView = StridedView(shape0: nat, shape1: nat, shape2: nat, shape3: nat,
                                     stride0: nat, stride1: nat, stride2: nat, stride3: nat)

  datatype Index = Index(block: nat, head: nat, token: nat, channel: nat)

  datatype Geometry = Geometry(numBlocks: nat, numHeads: nat, blockSize: nat, packedHeadSize: nat)

  function ValidatePackedShape(shape: Geometry, blockSize: nat, layout: string)
    : (r: Result<(nat, nat, nat), ShapeError>)
    ensures r.Ok? <==> layout == "NHD" && shape.blockSize == blockSize && shape.packedHeadSize % 2 == 0
    ensures r.Ok? ==> r.value == (shape.numBlocks, shape.numHeads, shape.packedHeadSize)
  {
    if layout != "NHD" then Err(LayoutNotNhd)
    else if shape.blockSize != blockSize then Err(BlockSizeMismatch)
    else if shape.packedHeadSize % 2 != 0 then Err(OddPackedHead)
    else Ok((shape.numBlocks, shape.numHeads, shape.packedHeadSize))
  }

  /** A missing or zero kernel block size means the whole block. */
  function KernelSize(g: Geometry, kernelBlockSize: Option<nat>): nat {
    if kernelBlockSize.Some? && kernelBlockSize.value != 0 then kernelBlockSize.value else g.blockSize
  }

  /** An accepted kernel block size divides the block; a whole-block kernel always does. */
  function PackedView(g: Geometry, kernelBlockSize: Option<nat>): (r: Result<StridedView, KernelError>)
    requires g.blockSize > 0
    ensures kernelBlockSize.None? || kernelBlockSize == Some(0) ==> r.Ok? && r.value.shape2 == g.blockSize
    ensures kernelBlockSize.Some? && kernelBlockSize.value > 0 ==>
              && (r.Ok? <==> g.blockSize % kernelBlockSize.value == 0)
              && (r.Ok? ==> r.value.shape2 == kernelBlockSize.value)
    ensures r.Ok? ==> r.value.shape2 > 0 && g.blockSize == g.blockSize / r.value.shape2 * r.value.shape2
  {
    QuotientAndRemainder(1, 0, g.blockSize);
    var kernelSize := KernelSize(g, kernelBlockSize);
    if g.blockSize % kernelSize != 0 then Err(KernelDoesNotDivideBlock)
    else
      var ratio := g.blockSize / kernelSize;
      Ok(StridedView(g.numBlocks * ratio, g.numHeads, kernelSize, g.packedHeadSize,
                     g.numHeads * kernelSize * g.packedHeadSize,
                     g.packedHeadSize,
                     g.numHeads * g.packedHeadSize,
                     1))
  }

  predicate InShape(v: StridedView, i: Index) {
    i.block < v.shape0 && i.head < v.shape1 && i.token < v.shape2 && i.channel < v.shape3
  }

  function Offset(v: StridedView, i: Index): nat {
    i.block * v.stride0 + i.head * v.stride1 + i.token * v.stride2 + i.channel * v.stride3
  }

  function BufferElements(g: Geometry): nat {
    g.numBlocks * g.blockSize * g.numHeads * g.packedHeadSize
  }

  /** The index that a buffer offset belongs to: the offset read as a mixed-radix number. */
  function IndexAt(v: StridedView, offset: nat): Index
    requires v.shape1 > 0 && v.shape2 > 0 && v.shape3 > 0
  {
    Index(offset / v.shape3 / v.shape1 / v.shape2,
          offset / v.shape3 % v.shape1,
          offset / v.shape3 / v.shape1 % v.shape2,
          offset % v.shape3)
  }

  // ---------- mixed-radix arithmetic ----------

  lemma QuotientAndRemainder(q: nat, r: nat, d: nat)
    requires r < d
    ensures (q * d + r) / d == q && (q * d + r) % d == r
  {
    var x := q * d + r;
    DivisionSplits(x, d);
    Factor(x / d, q, d);
    MultipleNearZero(x / d - q, d);
  }

  lemma Factor(a: nat, b: nat, d: nat)
    ensures (a - b) * d == a * d - b * d
  {
  }

  lemma MultipleNearZero(m: int, d: int)
    requires d > 0 && 0 - d < m * d < d
    ensures m == 0
  {
    MultipleIsFar(m, d);
  }

  lemma MultipleIsFar(m: int, d: int)
    requires d > 0
    ensures m >= 1 ==> m * d >= d
    ensures m <= -1 ==> m * d <= -d
  {
    if m >= 1 {
      assert (m - 1) * d >= 0;
    } else if m <= -1 {
      assert (-m - 1) * d >= 0;
    }
  }

  lemma DivisionSplits(x: nat, d: nat)
    requires d > 0
    ensures x == x / d * d + x % d
    ensures x % d < d
  {
  }

  lemma ProductBelow(q: nat, r: nat, d: nat, n: nat)
    requires q < n && r < d
    ensures q * d + r < n * d
  {
    LargerFactor(n, q + 1, d);
    Distribute(q, 1, d);
  }

  lemma QuotientBelow(x: nat, d: nat, n: nat)
    requires d > 0 && x < n * d
    ensures x / d < n
  {
    DivisionSplits(x, d);
    LargerFactor(x / d, n, d);
  }

  lemma LargerFactor(q: nat, n: nat, d: nat)
    ensures q >= n ==> q * d >= n * d
  {
    if q >= n {
      assert (q - n) * d >= 0;
      assert q * d == n * d + (q - n) * d;
    }
  }

  lemma Distribute(a: nat, b: nat, c: nat)
    ensures a * (b * c) == a * b * c
    ensures (a + b) * c == a * c + b * c
    ensures a * b == b * a
  {
  }

  /** The strides of a packed view are exactly the place values of (block, token, head, channel). */
  lemma OffsetIsMixedRadix(g: Geometry, kernelBlockSize: Option<nat>, i: Index)
    requires g.blockSize > 0 && PackedView(g, kernelBlockSize).Ok?
    ensures var v := PackedView(g, kernelBlockSize).value;
            Offset(v, i) == ((i.block * v.shape2 + i.token) * v.shape1 + i.head) * v.shape3 + i.channel
  {
    var v := PackedView(g, kernelBlockSize).value;
    var (h, k, p) := (v.shape1, v.shape2, v.shape3);
    Distribute(h, k, p);
    assert h * k * p == k * h * p by { Distribute(h, k, p); }
    PlaceValues(i.block, i.token, i.head, h, k, p);
  }

  lemma PlaceValues(b: nat, t: nat, head: nat, h: nat, k: nat, p: nat)
    ensures ((b * k + t) * h + head) * p == b * (h * k * p) + t * (h * p) + head * p
  {
    Distribute((b * k + t) * h, head, p);
    Distribute(b * k, t, h);
    Distribute(b * k * h, t * h, p);
    Distribute(t, h, p);
    assert b * k * h * p == b * (h * k * p) by {
      Distribute(b, k * h, p);
      Distribute(b, k, h);
      Distribute(b, k * h * p, 1);
      assert k * h == h * k;
      assert b * k * h == b * (h * k);
      Distribute(b, h * k, p);
    }
  }

  // ---------- the layout theorem ----------

  lemma SplitBlocksFillTheBuffer(g: Geometry, kernelBlockSize: Option<nat>)
    requires g.blockSize > 0 && PackedView(g, kernelBlockSize).Ok?
    ensures var v := PackedView(g, kernelBlockSize).value;
            v.shape0 * v.shape2 * v.shape1 * v.shape3 == BufferElements(g)
  {
    var kernelSize := KernelSize(g, kernelBlockSize);
    var ratio := g.blockSize / kernelSize;
    Distribute(g.numBlocks, ratio, kernelSize);
  }

  /** Every index of the view lands inside the buffer, and decoding its offset gives it back. */
  lemma ViewStaysInsideTheBuffer(g: Geometry, kernelBlockSize: Option<nat>, i: Index)
    requires g.blockSize > 0 && PackedView(g, kernelBlockSize).Ok?
    requires InShape(PackedView(g, kernelBlockSize).value, i)
    ensures var v := PackedView(g, kernelBlockSize).value;
            Offset(v, i) < BufferElements(g) && IndexAt(v, Offset(v, i)) == i
  {
    var v := PackedView(g, kernelBlockSize).value;
    OffsetIsMixedRadix(g, kernelBlockSize, i);
    SplitBlocksFillTheBuffer(g, kernelBlockSize);
    var row := i.block * v.shape2 + i.token;
    ProductBelow(i.block, i.token, v.shape2, v.shape0);
    ProductBelow(row, i.head, v.shape1, v.shape0 * v.shape2);
    ProductBelow(row * v.shape1 + i.head, i.channel, v.shape3, v.shape0 * v.shape2 * v.shape1);
    QuotientAndRemainder(row * v.shape1 + i.head, i.channel, v.shape3);
    QuotientAndRemainder(row, i.head, v.shape1);
    QuotientAndRemainder(i.block, i.token, v.shape2);
  }

  lemma NoZeroFactor(a: nat, b: nat, c: nat)
    requires a * b * c > 0
    ensures b > 0 && c > 0
  {
  }

  /** Every element of the buffer is reached, by the index its offset decodes to. */
  lemma ViewCoversTheBuffer(g: Geometry, kernelBlockSize: Option<nat>, offset: nat)
    requires g.blockSize > 0 && PackedView(g, kernelBlockSize).Ok? && offset < BufferElements(g)
    ensures var v := PackedView(g, kernelBlockSize).value;
            && v.shape1 > 0 && v.shape2 > 0 && v.shape3 > 0
            && InShape(v, IndexAt(v, offset))
            && Offset(v, IndexAt(v, offset)) == offset
  {
    var v := PackedView(g, kernelBlockSize).value;
    SplitBlocksFillTheBuffer(g, kernelBlockSize);
    NoZeroFactor(v.shape0 * v.shape2, v.shape1, v.shape3);
    var i := IndexAt(v, offset);
    QuotientBelow(offset, v.shape3, v.shape0 * v.shape2 * v.shape1);
    QuotientBelow(offset / v.shape3, v.shape1, v.shape0 * v.shape2);
    QuotientBelow(offset / v.shape3 / v.shape1, v.shape2, v.shape0);
    DivisionSplits(offset, v.shape3);
    DivisionSplits(offset / v.shape3, v.shape1);
    DivisionSplits(offset / v.shape3 / v.shape1, v.shape2);
    OffsetIsMixedRadix(g, kernelBlockSize, i);
  }

  /** The view is a bijection between its indices and the buffer's elements. */
  lemma ViewIsABijection(g: Geometry, kernelBlockSize: Option<nat>)
    requires g.blockSize > 0 && PackedView(g, kernelBlockSize).Ok?
    ensures var v := PackedView(g, kernelBlockSize).value;
            && (forall i, j :: InShape(v, i) && InShape(v, j) && Offset(v, i) == Offset(v, j) ==> i == j)
            && (forall i :: InShape(v, i) ==> Offset(v, i) < BufferElements(g))
            && (forall offset: nat :: offset < BufferElements(g) ==> Reached(v, offset))
  {
    var v := PackedView(g, kernelBlockSize).value;
    forall i, j | InShape(v, i) && InShape(v, j) && Offset(v, i) == Offset(v, j) ensures i == j {
      ViewStaysInsideTheBuffer(g, kernelBlockSize, i);
      ViewStaysInsideTheBuffer(g, kernelBlockSize, j);
    }
    forall i | InShape(v, i) ensures Offset(v, i) < BufferElements(g) {
      ViewStaysInsideTheBuffer(g, kernelBlockSize, i);
    }
    forall offset: nat | offset < BufferElements(g) ensures Reached(v, offset) {
      ViewCoversTheBuffer(g, kernelBlockSize, offset);
    }
  }

  ghost predicate Reached(v: StridedView, offset: nat) {
    exists i :: InShape(v, i) && Offset(v, i) == offset
  }

  /** Token `token` of block `block`, addressed through kernel-sized pieces of the block. */
  function SplitIndex(kernelSize: nat, ratio: nat, i: Index): Index
    requires kernelSize > 0
  {
    Index(i.block * ratio + i.token / kernelSize, i.head, i.token % kernelSize, i.channel)
  }

  /** The split index lies in the split view, at the same token row of the buffer. */
  lemma WholeShape(g: Geometry)
    requires g.blockSize > 0
    ensures var v := PackedView(g, None).value;
            v.shape0 == g.numBlocks && v.shape1 == g.numHeads && v.shape2 == g.blockSize && v.shape3 == g.packedHeadSize
  {
    QuotientAndRemainder(1, 0, g.blockSize);
  }

  lemma SplitShape(g: Geometry, kernelBlockSize: Option<nat>)
    requires g.blockSize > 0 && PackedView(g, kernelBlockSize).Ok?
    ensures var v := PackedView(g, kernelBlockSize).value;
            && v.shape0 == g.numBlocks * (g.blockSize / v.shape2)
            && v.shape1 == g.numHeads && v.shape3 == g.packedHeadSize
  {
  }

  lemma SplitIndexIsInShape(g: Geometry, kernelBlockSize: Option<nat>, i: Index)
    requires g.blockSize > 0 && PackedView(g, kernelBlockSize).Ok?
    requires InShape(PackedView(g, None).value, i)
    ensures var split := PackedView(g, kernelBlockSize).value;
            var at := SplitIndex(split.shape2, g.blockSize / split.shape2, i);
            InShape(split, at) && at.block * split.shape2 + at.token == i.block * g.blockSize + i.token
  {
    var split := PackedView(g, kernelBlockSize).value;
    var ratio := g.blockSize / split.shape2;
    WholeShape(g);
    SplitShape(g, kernelBlockSize);
    SplitArithmetic(i.block, i.token, split.shape2, ratio, g.numBlocks, g.blockSize);
  }

  /** Splitting blocks for the kernel moves no element: both views agree on every token. */
  lemma SplittingKeepsOffsets(g: Geometry, kernelBlockSize: Option<nat>, i: Index)
    requires g.blockSize > 0 && PackedView(g, kernelBlockSize).Ok?
    requires InShape(PackedView(g, None).value, i)
    ensures var (whole, split) := (PackedView(g, None).value, PackedView(g, kernelBlockSize).value);
            var ratio := g.blockSize / split.shape2;
            && InShape(split, SplitIndex(split.shape2, ratio, i))
            && Offset(split, SplitIndex(split.shape2, ratio, i)) == Offset(whole, i)
  {
    var (whole, split) := (PackedView(g, None).value, PackedView(g, kernelBlockSize).value);
    var at := SplitIndex(split.shape2, g.blockSize / split.shape2, i);
    SplitIndexIsInShape(g, kernelBlockSize, i);
    OffsetIsMixedRadix(g, None, i);
    OffsetIsMixedRadix(g, kernelBlockSize, at);
    SameRow(i.block * g.blockSize + i.token, at.block * split.shape2 + at.token, g.numHeads, i.head,
            g.packedHeadSize, i.channel);
  }

  lemma SameRow(row: nat, other: nat, heads: nat, head: nat, p: nat, channel: nat)
    requires row == other
    ensures (row * heads + head) * p + channel == (other * heads + head) * p + channel
  {
  }

  lemma SplitArithmetic(block: nat, token: nat, k: nat, ratio: nat, numBlocks: nat, blockSize: nat)
    requires k > 0 && blockSize == ratio * k && token < blockSize && block < numBlocks
    ensures token % k < k && block * ratio + token / k < numBlocks * ratio
    ensures (block * ratio + token / k) * k + token % k == block * blockSize + token
  {
    DivisionSplits(token, k);
    QuotientBelow(token, k, ratio);
    ProductBelow(block, token / k, ratio, numBlocks);
    Distribute(block * ratio, token / k, k);
    Distribute(block, ratio, k);
  }

  // ---------- pages ----------

  function PageElements(g: Geometry): nat {
    g.blockSize * g.numHeads * g.packedHeadSize
  }

  predicate InPage(g: Geometry, block: nat, offset: nat) {
    block * PageElements(g) <= offset < (block + 1) * PageElements(g)
  }

  ghost predicate ReachedBy(v: StridedView, block: nat, offset: nat) {
    exists i :: InShape(v, i) && i.block == block && Offset(v, i) == offset
  }

  lemma ElementIsInItsPage(g: Geometry, i: Index)
    requires g.blockSize > 0 && InShape(PackedView(g, None).value, i)
    ensures InPage(g, i.block, Offset(PackedView(g, None).value, i))
  {
    var v := PackedView(g, None).value;
    OffsetIsMixedRadix(g, None, i);
    PageArithmetic(i, v.shape1, v.shape2, v.shape3);
    assert v.shape1 * v.shape2 * v.shape3 == PageElements(g) by {
      Distribute(v.shape1, v.shape2, v.shape3);
    }
  }

  lemma PagesAreApart(page: nat, a: nat, b: nat, offset: nat)
    requires a * page <= offset < (a + 1) * page && b * page <= offset < (b + 1) * page
    ensures a == b
  {
    assert (a + 1) * page == a * page + page && (b + 1) * page == b * page + page;
    Factor(a, b, page);
    MultipleNearZero(a - b, page);
  }

  lemma PageIsInTheBuffer(g: Geometry, block: nat, offset: nat)
    requires block < g.numBlocks && InPage(g, block, offset)
    ensures offset < BufferElements(g)
  {
    LargerFactor(g.numBlocks, block + 1, PageElements(g));
    BufferIsItsPages(g.numBlocks, g.blockSize, g.numHeads, g.packedHeadSize);
  }

  lemma BufferIsItsPages(n: nat, b: nat, h: nat, s: nat)
    ensures n * b * h * s == n * (b * h * s)
  {
    Distribute(n, b, h);
    Distribute(n, b * h, s);
  }

  /** A block's elements fill one contiguous page: its offsets are the page's, neither more nor less. */
  lemma BlockIsOnePage(g: Geometry, block: nat, offset: nat)
    requires g.blockSize > 0 && block < g.numBlocks
    ensures ReachedBy(PackedView(g, None).value, block, offset) <==> InPage(g, block, offset)
  {
    var v := PackedView(g, None).value;
    if i :| InShape(v, i) && i.block == block && Offset(v, i) == offset {
      ElementIsInItsPage(g, i);
    }
    if InPage(g, block, offset) {
      PageIsInTheBuffer(g, block, offset);
      ViewIsABijection(g, None);
      assert Reached(v, offset);
      var i :| InShape(v, i) && Offset(v, i) == offset;
      ElementIsInItsPage(g, i);
      PagesAreApart(PageElements(g), i.block, block, offset);
    }
  }

  lemma PageArithmetic(i: Index, h: nat, k: nat, p: nat)
    requires i.head < h && i.token < k && i.channel < p
    ensures var offset := ((i.block * k + i.token) * h + i.head) * p + i.channel;
            i.block * (h * k * p) <= offset < (i.block + 1) * (h * k * p)
  {
    ProductBelow(i.token, i.head, h, k);
    ProductBelow(i.token * h + i.head, i.channel, p, k * h);
    var inside, page := (i.token * h + i.head) * p + i.channel, h * k * p;
    assert inside < page by { Distribute(h, k, 1); }
    assert ((i.block * k + i.token) * h + i.head) * p + i.channel == i.block * page + inside by {
      PlaceValues(i.block, i.token, i.head, h, k, p);
      PlaceValues(0, i.token, i.head, h, k, p);
    }
    assert (i.block + 1) * page == i.block * page + page by { Distribute(i.block, 1, page); }
  }

  /** The explicit key/value shape handed to the allocator: keys and values in separate halves. */
  function ExplicitShapeElements(g: Geometry): nat {
    g.numBlocks * 2 * g.blockSize * g.numHeads * (g.packedHeadSize / 2)
  }

  /** Splitting an accepted head into keys and values neither gains nor loses an element. */
  lemma ExplicitShapeMatchesView(g: Geometry, layout: string)
    requires ValidatePackedShape(g, g.blockSize, layout).Ok?
    ensures ExplicitShapeElements(g) == BufferElements(g) == g.numBlocks * PageElements(g)
  {
    var half := g.packedHeadSize / 2;
    var rest := g.blockSize * g.numHeads;
    assert g.numBlocks * 2 * g.blockSize * g.numHeads == g.numBlocks * rest * 2 by {
      Distribute(g.numBlocks * 2, g.blockSize, g.numHeads);
      Distribute(g.numBlocks, 2, rest);
      Distribute(g.numBlocks, rest, 2);
    }
    Distribute(g.numBlocks * rest, 2, half);
    Distribute(g.numBlocks, g.blockSize, g.numHeads);
    Distribute(g.numBlocks, rest, g.packedHeadSize);
  }

  /** The allocator's page size for one block, in bytes. */
  function PageSizeBytes(g: Geometry, itemSize: nat): nat {
    g.blockSize * g.numHeads * g.packedHeadSize * itemSize
  }

  function CellSize(pageSizeBytes: nat, blockSize: nat): nat
    requires blockSize > 0
  {
    pageSizeBytes / blockSize
  }

  /** The per-token cell size the allocator derives from the page size loses nothing to rounding. */
  lemma CellsRebuildThePage(g: Geometry, itemSize: nat)
    requires g.blockSize > 0
    ensures CellSize(PageSizeBytes(g, itemSize), g.blockSize) * g.blockSize == PageSizeBytes(g, itemSize)
    ensures CellSize(PageSizeBytes(g, itemSize), g.blockSize) == g.numHeads * g.packedHeadSize * itemSize
  {
    var cell := g.numHeads * g.packedHeadSize * itemSize;
    assert PageSizeBytes(g, itemSize) == cell * g.blockSize by {
      Distribute(g.blockSize, g.numHeads, g.packedHeadSize);
      Distribute(g.blockSize, g.numHeads * g.packedHeadSize, itemSize);
      Distribute(g.blockSize, cell, 1);
    }
    QuotientAndRemainder(cell, 0, g.blockSize);
  }
}
