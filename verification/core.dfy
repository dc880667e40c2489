/**
 * The Kronecker product of the simulator core (Qlay/Core.cpp).
 *
 * The source works on Eigen matrices of complex doubles; here the entries are
 * integers, which keeps every statement about shape and placement exact.
 */
module Core {

  /** A dense matrix as a value: `rows` lists of `cols` entries each. */
  datatype Matrix = Matrix(rows: nat, cols: nat, entries: seq<seq<int>>)
  {
    predicate Valid() {
      |entries| == rows && forall i :: 0 <= i < rows ==> |entries[i]| == cols
    }

    function At(i: nat, j: nat): int
      requires Valid() && i < rows && j < cols
    {
      entries[i][j]
    }
  }

  /** The 1x1 matrix [1] that expand_operator starts from. */
  const One: Matrix := Matrix(1, 1, [[1]])

  /** The matrix held by a two-dimensional array. */
  ghost function Elements(m: array2<int>): (e: Matrix)
    reads m
    ensures e.Valid() && e.rows == m.Length0 && e.cols == m.Length1
    ensures forall i, j :: 0 <= i < m.Length0 && 0 <= j < m.Length1 ==> e.At(i, j) == m[i, j]
  {
    Matrix(m.Length0, m.Length1,
      seq(m.Length0, i requires 0 <= i < m.Length0 reads m =>
        seq(m.Length1, j requires 0 <= j < m.Length1 reads m => m[i, j])))
  }

  /** Equal shapes and equal entries make equal matrices. */
  lemma MatrixExt(x: Matrix, y: Matrix)
    requires x.Valid() && y.Valid() && x.rows == y.rows && x.cols == y.cols
    requires forall i, j :: 0 <= i < x.rows && 0 <= j < x.cols ==> x.At(i, j) == y.At(i, j)
    ensures x == y
  {
    forall i | 0 <= i < x.rows
      ensures x.entries[i] == y.entries[i]
    {
      assert |x.entries[i]| == |y.entries[i]|;
      assert forall j :: 0 <= j < x.cols ==> x.entries[i][j] == x.At(i, j) == y.At(i, j) == y.entries[i][j];
    }
    assert x.entries == y.entries;
  }

  // ---------------------------------------------------------------------------
  // Block arithmetic: row (column) x of the product lies in block x / n at
  // offset x % n, where n is the row (column) count of the right operand.
  // ---------------------------------------------------------------------------

  /** Position of offset p inside block i, for blocks of size n. */
  function Pos(i: nat, n: nat, p: nat): nat {
    i * n + p
  }

  /** Offsets inside an earlier block stay below every later block. */
  lemma BlockBefore(i: nat, i': nat, n: nat, p: nat)
    requires i < i' && p < n
    ensures Pos(i, n, p) < i' * n
  {
    assert (i' - i) * n >= n by {
      assert i' - i >= 1;
    }
    assert i' * n - i * n == (i' - i) * n;
  }

  /** Block index and offset are recovered from a position by / and %. */
  lemma {:induction false} BlockOffset(i: nat, n: nat, p: nat)
    requires p < n
    ensures Pos(i, n, p) / n == i && Pos(i, n, p) % n == p
  {
    var x := Pos(i, n, p);
    var d, m := x / n, x % n;
    assert x == Pos(d, n, m) && 0 <= m < n;
    if d < i {
      BlockBefore(d, i, n, m);
    } else if d > i {
      BlockBefore(i, d, n, p);
    }
  }

  /** Distinct (block, offset) pairs name distinct positions: blocks do not overlap. */
  lemma BlocksDisjoint(i: nat, p: nat, i': nat, p': nat, n: nat)
    requires p < n && p' < n && Pos(i, n, p) == Pos(i', n, p')
    ensures i == i' && p == p'
  {
    BlockOffset(i, n, p);
    BlockOffset(i', n, p');
  }

  /** Every position below m * n lies in one of the m blocks: the blocks cover the range. */
  lemma BlocksCover(x: nat, m: nat, n: nat)
    requires x < m * n
    ensures n > 0 && x / n < m && x % n < n && x == Pos(x / n, n, x % n)
  {
  }

  /** Entry (r, c) of a (x) b. */
  function KronEntry(a: Matrix, b: Matrix, r: nat, c: nat): int
    requires a.Valid() && b.Valid()
    requires r < a.rows * b.rows && c < a.cols * b.cols
  {
    BlocksCover(r, a.rows, b.rows);
    BlocksCover(c, a.cols, b.cols);
    a.At(r / b.rows, c / b.cols) * b.At(r % b.rows, c % b.cols)
  }

  /** The Kronecker product a (x) b as a value. */
  function Kron(a: Matrix, b: Matrix): (k: Matrix)
    requires a.Valid() && b.Valid()
    ensures k.Valid()
    ensures k.rows == a.rows * b.rows && k.cols == a.cols * b.cols
    ensures forall r, c :: 0 <= r < k.rows && 0 <= c < k.cols ==> k.At(r, c) == KronEntry(a, b, r, c)
  {
    Matrix(a.rows * b.rows, a.cols * b.cols,
      seq(a.rows * b.rows, r requires 0 <= r < a.rows * b.rows =>
        seq(a.cols * b.cols, c requires 0 <= c < a.cols * b.cols => KronEntry(a, b, r, c))))
  }

  /** Block (i, j) of a (x) b is a(i, j) times b. */
  lemma KronBlock(a: Matrix, b: Matrix, i: nat, j: nat, p: nat, q: nat)
    requires a.Valid() && b.Valid()
    requires i < a.rows && j < a.cols && p < b.rows && q < b.cols
    ensures Pos(i, b.rows, p) < a.rows * b.rows && Pos(j, b.cols, q) < a.cols * b.cols
    ensures Kron(a, b).At(Pos(i, b.rows, p), Pos(j, b.cols, q)) == a.At(i, j) * b.At(p, q)
  {
    BlockBefore(i, a.rows, b.rows, p);
    BlockBefore(j, a.cols, b.cols, q);
    BlockOffset(i, b.rows, p);
    BlockOffset(j, b.cols, q);
  }

  /** With [1] on the right the product is the left operand (expand_operator at index 0). */
  lemma KronRightUnit(a: Matrix)
    requires a.Valid()
    ensures Kron(a, One) == a
  {
    var k := Kron(a, One);
    forall r, c | 0 <= r < a.rows && 0 <= c < a.cols
      ensures k.At(r, c) == a.At(r, c)
    {
      BlockOffset(r, 1, 0);
      BlockOffset(c, 1, 0);
    }
    MatrixExt(k, a);
  }

  /** With [1] on the left the product is the right operand. */
  lemma KronLeftUnit(b: Matrix)
    requires b.Valid()
    ensures Kron(One, b) == b
  {
    var k := Kron(One, b);
    forall r, c | 0 <= r < b.rows && 0 <= c < b.cols
      ensures k.At(r, c) == b.At(r, c)
    {
      BlockOffset(0, b.rows, r);
      BlockOffset(0, b.cols, c);
    }
    MatrixExt(k, b);
  }

  // ---------------------------------------------------------------------------
  // kronecker_product: allocate k, then assign block (i, j) := a(i, j) * b for
  // every entry of a.
  // ---------------------------------------------------------------------------

  /** Whether (r, c) lies in the rows0 x cols0 rectangle whose corner is (r0, c0). */
  predicate InBlock(r: int, c: int, r0: int, c0: int, rows0: int, cols0: int) {
    r0 <= r < r0 + rows0 && c0 <= c < c0 + cols0
  }

  /** k.block(r0, c0, rows(b), cols(b)) = s * b: writes one block and nothing else. */
  method AssignBlock(k: array2<int>, r0: nat, c0: nat, s: int, b: array2<int>)
    requires k != b
    requires r0 + b.Length0 <= k.Length0 && c0 + b.Length1 <= k.Length1
    modifies k
    ensures forall p, q :: 0 <= p < b.Length0 && 0 <= q < b.Length1 ==> k[r0 + p, c0 + q] == s * b[p, q]
    ensures forall r, c :: 0 <= r < k.Length0 && 0 <= c < k.Length1 && !InBlock(r, c, r0, c0, b.Length0, b.Length1) ==>
      k[r, c] == old(k[r, c])
  {
    var p := 0;
    while p < b.Length0
      invariant 0 <= p <= b.Length0
      invariant forall p', q :: 0 <= p' < p && 0 <= q < b.Length1 ==> k[r0 + p', c0 + q] == s * b[p', q]
      invariant forall r, c :: 0 <= r < k.Length0 && 0 <= c < k.Length1 && !InBlock(r, c, r0, c0, p, b.Length1) ==>
        k[r, c] == old(k[r, c])
    {
      var q := 0;
      while q < b.Length1
        invariant 0 <= q <= b.Length1
        invariant forall p', q' :: 0 <= p' < p && 0 <= q' < b.Length1 ==> k[r0 + p', c0 + q'] == s * b[p', q']
        invariant forall q' :: 0 <= q' < q ==> k[r0 + p, c0 + q'] == s * b[p, q']
        invariant forall r, c :: (0 <= r < k.Length0 && 0 <= c < k.Length1 && !InBlock(r, c, r0, c0, p, b.Length1) &&
          !InBlock(r, c, r0 + p, c0, 1, q)) ==> k[r, c] == old(k[r, c])
      {
        k[r0 + p, c0 + q] := s * b[p, q];
        q := q + 1;
      }
      p := p + 1;
    }
  }

  /** Block (i, j) of k holds a(i, j) times b. */
  ghost predicate BlockHolds(k: array2<int>, a: array2<int>, b: array2<int>, i: nat, j: nat)
    requires i < a.Length0 && j < a.Length1
    reads k, a, b
  {
    forall p, q :: 0 <= p < b.Length0 && 0 <= q < b.Length1 ==>
      Pos(i, b.Length0, p) < k.Length0 && Pos(j, b.Length1, q) < k.Length1 &&
      k[Pos(i, b.Length0, p), Pos(j, b.Length1, q)] == a[i, j] * b[p, q]
  }

  /** Every block in the rows before i holds: what the outer fill loop has done. */
  ghost predicate RowsDone(k: array2<int>, a: array2<int>, b: array2<int>, i: nat)
    requires i <= a.Length0
    reads k, a, b
  {
    forall i', j' :: 0 <= i' < i && 0 <= j' < a.Length1 ==> BlockHolds(k, a, b, i', j')
  }

  /** The blocks of row i before column j hold: what the inner fill loop has done. */
  ghost predicate RowDone(k: array2<int>, a: array2<int>, b: array2<int>, i: nat, j: nat)
    requires i < a.Length0 && j <= a.Length1
    reads k, a, b
  {
    forall j' :: 0 <= j' < j ==> BlockHolds(k, a, b, i, j')
  }

  method KroneckerProduct(a: array2<int>, b: array2<int>) returns (k: array2<int>)
    ensures fresh(k)
    ensures k.Length0 == a.Length0 * b.Length0 && k.Length1 == a.Length1 * b.Length1
    ensures forall i, j :: 0 <= i < a.Length0 && 0 <= j < a.Length1 ==> BlockHolds(k, a, b, i, j)
    ensures Elements(k) == Kron(Elements(a), Elements(b))
  {
    var rb, cb := b.Length0, b.Length1;
    k := new int[a.Length0 * rb, a.Length1 * cb];
    var i := 0;
    while i < a.Length0
      invariant 0 <= i <= a.Length0
      invariant RowsDone(k, a, b, i)
    {
      var j := 0;
      while j < a.Length1
        invariant 0 <= j <= a.Length1
        invariant RowsDone(k, a, b, i) && RowDone(k, a, b, i, j)
      {
        FillStep(k, a, b, i, j);
        j := j + 1;
      }
      i := i + 1;
    }
    KronOfArrays(k, a, b);
  }

  /** One iteration of the inner fill loop: assign block (i, j), keep the earlier blocks. */
  method FillStep(k: array2<int>, a: array2<int>, b: array2<int>, i: nat, j: nat)
    requires k != b && k != a
    requires k.Length0 == a.Length0 * b.Length0 && k.Length1 == a.Length1 * b.Length1
    requires i < a.Length0 && j < a.Length1
    requires RowsDone(k, a, b, i) && RowDone(k, a, b, i, j)
    modifies k
    ensures RowsDone(k, a, b, i) && RowDone(k, a, b, i, j + 1)
  {
    var rb, cb := b.Length0, b.Length1;
    if rb > 0 { BlockBefore(i, a.Length0, rb, rb - 1); }
    if cb > 0 { BlockBefore(j, a.Length1, cb, cb - 1); }
    AssignBlock(k, i * rb, j * cb, a[i, j], b);
    forall i', j', p, q | 0 <= i' < a.Length0 && 0 <= j' < a.Length1 && (i' < i || (i' == i && j' <= j)) &&
      0 <= p < b.Length0 && 0 <= q < b.Length1
      ensures Pos(i', b.Length0, p) < k.Length0 && Pos(j', b.Length1, q) < k.Length1 &&
        k[Pos(i', b.Length0, p), Pos(j', b.Length1, q)] == a[i', j'] * b[p, q]
    {
      BlockBefore(i', a.Length0, rb, p);
      BlockBefore(j', a.Length1, cb, q);
      if i' < i || j' < j {
        if i' < i {
          BlockBefore(i', i, rb, p);
        } else {
          BlockBefore(j', j, cb, q);
        }
        assert !InBlock(Pos(i', rb, p), Pos(j', cb, q), i * rb, j * cb, rb, cb);
        assert old(BlockHolds(k, a, b, i', j'));
      } else {
        assert k[i * rb + p, j * cb + q] == a[i, j] * b[p, q];
      }
    }
    forall i', j' | 0 <= i' < a.Length0 && 0 <= j' < a.Length1 && (i' < i || (i' == i && j' <= j))
      ensures BlockHolds(k, a, b, i', j')
    {
    }
  }

  /** The block-wise characterisation determines the whole product. */
  lemma KronOfArrays(k: array2<int>, a: array2<int>, b: array2<int>)
    requires k.Length0 == a.Length0 * b.Length0 && k.Length1 == a.Length1 * b.Length1
    requires RowsDone(k, a, b, a.Length0)
    ensures Elements(k) == Kron(Elements(a), Elements(b))
  {
    var e, ea, eb := Elements(k), Elements(a), Elements(b);
    var kr := Kron(ea, eb);
    forall r, c | 0 <= r < k.Length0 && 0 <= c < k.Length1
      ensures e.At(r, c) == kr.At(r, c)
    {
      BlocksCover(r, a.Length0, b.Length0);
      BlocksCover(c, a.Length1, b.Length1);
      var i, p, j, q := r / b.Length0, r % b.Length0, c / b.Length1, c % b.Length1;
      assert BlockHolds(k, a, b, i, j);
      assert k[Pos(i, b.Length0, p), Pos(j, b.Length1, q)] == a[i, j] * b[p, q];
    }
    MatrixExt(e, kr);
  }
}
