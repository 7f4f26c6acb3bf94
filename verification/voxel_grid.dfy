/**
 * A 3-D voxel grid stored as one flat buffer, x fastest: the voxel at relative
 * index (i, j, k) of a grid with dimensions (nx, ny, nz) sits at offset
 * i + j*nx + k*nx*ny. This module holds the indexing arithmetic, the
 * "foreground on the outer shell" predicate that the border scan decides, and
 * the voxel buffer produced by growing a grid by one background voxel on
 * every side.
 */
module VoxelGrid {

  datatype Dims = Dims(nx: nat, ny: nat, nz: nat)

  function VoxelCount(d: Dims): nat
  {
    d.nx * d.ny * d.nz
  }

  predicate InGrid(d: Dims, i: int, j: int, k: int)
  {
    0 <= i < d.nx && 0 <= j < d.ny && 0 <= k < d.nz
  }

  /** On one of the six faces: not strictly inside on all three axes. */
  predicate OnBorder(d: Dims, i: int, j: int, k: int)
  {
    i == 0 || i == d.nx - 1 || j == 0 || j == d.ny - 1 || k == 0 || k == d.nz - 1
  }

  // ---------------------------------------------------------------------------
  // Arithmetic helpers

  lemma MulMonotonic(a: nat, b: int, c: int)
    requires b <= c
    ensures a * b <= a * c
  {
  }

  /** A product of naturals is positive only when every factor is. */
  lemma ProductPositive(a: nat, b: nat, c: nat)
    requires a * b * c > 0
    ensures a > 0 && b > 0 && c > 0
  {
  }

  lemma MulCancelLess(a: nat, b: int, c: int)
    requires a * b < a * c
    ensures b < c
  {
    if b >= c {
      MulMonotonic(a, c, b);
    }
  }

  lemma DivModUnique(n: int, b: int, q: int, r: int)
    requires b > 0 && 0 <= r < b && n == q * b + r
    ensures n / b == q && n % b == r
  {
    var q', r' := n / b, n % b;
    assert b * q' < b * (q + 1);
    assert b * q < b * (q' + 1);
    MulCancelLess(b, q', q + 1);
    MulCancelLess(b, q, q' + 1);
  }

  /** The closed-form linear index stays inside a buffer of nx*ny*nz voxels. */
  lemma LinearIndexBound(nx: nat, ny: nat, nz: nat, i: int, j: int, k: int)
    ensures 0 <= i < nx && 0 <= j < ny && 0 <= k < nz ==>
              0 <= i + j * nx + k * nx * ny < nx * ny * nz
  {
    if 0 <= i < nx && 0 <= j < ny && 0 <= k < nz {
      var m := j + ny * k;
      MulMonotonic(ny, k, nz - 1);
      assert 0 <= m <= ny * nz - 1;
      MulMonotonic(nx, m, ny * nz - 1);
      assert nx * m <= nx * (ny * nz) - nx;
      assert nx * m >= 0 by { MulMonotonic(nx, 0, m); }
      assert j * nx + k * nx * ny == nx * m by {
        assert nx * m == nx * j + nx * (ny * k);
        assert k * nx * ny == nx * (ny * k);
      }
      assert nx * (ny * nz) == nx * ny * nz;
    }
  }

  // ---------------------------------------------------------------------------
  // Offsets into the flat buffer

  /** Offset of relative voxel index (i, j, k), as the border scan computes it. */
  function Offset(d: Dims, i: int, j: int, k: int): (n: int)
    ensures InGrid(d, i, j, k) ==> 0 <= n < VoxelCount(d)
  {
    LinearIndexBound(d.nx, d.ny, d.nz, i, j, k);
    i + j * d.nx + k * d.nx * d.ny
  }

  /** The relative index stored at offset n (the inverse of Offset). */
  function Decode(d: Dims, n: int): (int, int, int)
    requires d.nx > 0 && d.ny > 0
  {
    (n % d.nx, (n / d.nx) % d.ny, (n / d.nx) / d.ny)
  }

  lemma DecodeOffset(d: Dims, i: int, j: int, k: int)
    requires InGrid(d, i, j, k)
    ensures Decode(d, Offset(d, i, j, k)) == (i, j, k)
  {
    var m := j + d.ny * k;
    var n := Offset(d, i, j, k);
    assert n == m * d.nx + i;
    DivModUnique(n, d.nx, m, i);
    DivModUnique(m, d.ny, k, j);
  }

  /** Quotient and remainder of n by b > 0, with the identity that ties them to n. */
  lemma DivModSplit(n: int, b: int) returns (q: int, r: int)
    requires b > 0
    ensures q == n / b && r == n % b
    ensures n == q * b + r && 0 <= r < b
  {
    q, r := n / b, n % b;
  }

  lemma Recompose(nx: int, ny: int, n: int, m: int, i: int, j: int, k: int)
    requires n == m * nx + i && m == k * ny + j
    ensures i + j * nx + k * nx * ny == n
  {
    assert m * nx == k * ny * nx + j * nx;
  }

  lemma OffsetDecode(d: Dims, n: int)
    requires 0 <= n < VoxelCount(d)
    ensures d.nx > 0 && d.ny > 0 && d.nz > 0
    ensures var (i, j, k) := Decode(d, n); InGrid(d, i, j, k) && Offset(d, i, j, k) == n
  {
    ProductPositive(d.nx, d.ny, d.nz);
    var m, i := DivModSplit(n, d.nx);
    assert 0 <= m by {
      if m < 0 {
        MulMonotonic(d.nx, m, -1);
      }
    }
    assert d.nx * m <= n < d.nx * (d.ny * d.nz);
    MulCancelLess(d.nx, m, d.ny * d.nz);
    var k, j := DivModSplit(m, d.ny);
    assert d.ny * k <= m < d.ny * d.nz;
    MulCancelLess(d.ny, k, d.nz);
    assert 0 <= k by {
      if k < 0 {
        MulMonotonic(d.ny, k, -1);
      }
    }
    Recompose(d.nx, d.ny, n, m, i, j, k);
    assert Decode(d, n) == (i, j, k);
  }

  /** Distinct voxels of a grid occupy distinct offsets. */
  lemma OffsetInjective(d: Dims, i: int, j: int, k: int, i': int, j': int, k': int)
    requires InGrid(d, i, j, k) && InGrid(d, i', j', k')
    requires Offset(d, i, j, k) == Offset(d, i', j', k')
    ensures i == i' && j == j' && k == k'
  {
    DecodeOffset(d, i, j, k);
    DecodeOffset(d, i', j', k');
  }

  /** The value of voxel (i, j, k) in buffer v. */
  function Voxel(v: seq<int>, d: Dims, i: int, j: int, k: int): int
    requires |v| == VoxelCount(d) && InGrid(d, i, j, k)
  {
    v[Offset(d, i, j, k)]
  }

  // ---------------------------------------------------------------------------
  // The border predicate

  /** Some voxel on the outer shell of the grid is non-zero (foreground). */
  ghost predicate BorderHasForeground(v: seq<int>, d: Dims)
    requires |v| == VoxelCount(d)
  {
    exists i, j, k :: InGrid(d, i, j, k) && OnBorder(d, i, j, k) && Voxel(v, d, i, j, k) != 0
  }

  /** A grid with no voxels has no foreground on its border. */
  lemma EmptyGridHasNoBorderForeground(v: seq<int>, d: Dims)
    requires |v| == VoxelCount(d)
    requires d.nx == 0 || d.ny == 0 || d.nz == 0
    ensures !BorderHasForeground(v, d)
  {
  }

  /** Two buffers that agree on the outer shell agree on the border predicate. */
  lemma BorderForegroundDependsOnlyOnBorder(v: seq<int>, w: seq<int>, d: Dims)
    requires |v| == |w| == VoxelCount(d)
    requires forall i, j, k :: InGrid(d, i, j, k) && OnBorder(d, i, j, k) ==> Voxel(v, d, i, j, k) == Voxel(w, d, i, j, k)
    ensures BorderHasForeground(v, d) == BorderHasForeground(w, d)
  {
  }

  /** Changing a voxel that is strictly inside on all three axes does not change the border predicate. */
  lemma {:induction false} BorderForegroundIgnoresInterior(v: seq<int>, d: Dims, i: int, j: int, k: int, value: int)
    requires |v| == VoxelCount(d) && InGrid(d, i, j, k) && !OnBorder(d, i, j, k)
    ensures BorderHasForeground(v[Offset(d, i, j, k) := value], d) == BorderHasForeground(v, d)
  {
    var w := v[Offset(d, i, j, k) := value];
    forall a, b, c | InGrid(d, a, b, c) && OnBorder(d, a, b, c)
      ensures Voxel(v, d, a, b, c) == Voxel(w, d, a, b, c)
    {
      if Offset(d, a, b, c) == Offset(d, i, j, k) {
        OffsetInjective(d, a, b, c, i, j, k);
      }
    }
    BorderForegroundDependsOnlyOnBorder(v, w, d);
  }

  // ---------------------------------------------------------------------------
  // Padding by one voxel on every side

  function PadDims(d: Dims): Dims
  {
    Dims(d.nx + 2, d.ny + 2, d.nz + 2)
  }

  /**
   * Voxel (i, j, k) of the padded grid: the original voxel (i-1, j-1, k-1)
   * when there is one, background (0) on the new shell.
   */
  function PaddedValue(v: seq<int>, d: Dims, i: int, j: int, k: int): int
    requires |v| == VoxelCount(d) && InGrid(PadDims(d), i, j, k)
  {
    if 1 <= i <= d.nx && 1 <= j <= d.ny && 1 <= k <= d.nz then Voxel(v, d, i - 1, j - 1, k - 1) else 0
  }

  function PaddedValueAtOffset(v: seq<int>, d: Dims, n: int): int
    requires |v| == VoxelCount(d) && 0 <= n < VoxelCount(PadDims(d))
  {
    OffsetDecode(PadDims(d), n);
    var (i, j, k) := Decode(PadDims(d), n);
    PaddedValue(v, d, i, j, k)
  }

  /** The buffer of the padded grid. */
  function PaddedScalars(v: seq<int>, d: Dims): (w: seq<int>)
    requires |v| == VoxelCount(d)
    ensures |w| == VoxelCount(PadDims(d))
  {
    seq(VoxelCount(PadDims(d)), n requires 0 <= n < VoxelCount(PadDims(d)) => PaddedValueAtOffset(v, d, n))
  }

  lemma PaddedVoxel(v: seq<int>, d: Dims, i: int, j: int, k: int)
    requires |v| == VoxelCount(d) && InGrid(PadDims(d), i, j, k)
    ensures Voxel(PaddedScalars(v, d), PadDims(d), i, j, k) == PaddedValue(v, d, i, j, k)
  {
    DecodeOffset(PadDims(d), i, j, k);
  }

  /** Every original voxel keeps its value, one step further along each axis. */
  lemma PaddedKeepsVoxels(v: seq<int>, d: Dims, i: int, j: int, k: int)
    requires |v| == VoxelCount(d) && InGrid(d, i, j, k)
    ensures InGrid(PadDims(d), i + 1, j + 1, k + 1)
    ensures Voxel(PaddedScalars(v, d), PadDims(d), i + 1, j + 1, k + 1) == Voxel(v, d, i, j, k)
  {
    PaddedVoxel(v, d, i + 1, j + 1, k + 1);
  }

  /** The outer shell of the padded grid is all background. */
  lemma PaddedBorderIsBackground(v: seq<int>, d: Dims, i: int, j: int, k: int)
    requires |v| == VoxelCount(d) && InGrid(PadDims(d), i, j, k) && OnBorder(PadDims(d), i, j, k)
    ensures Voxel(PaddedScalars(v, d), PadDims(d), i, j, k) == 0
  {
    PaddedVoxel(v, d, i, j, k);
  }

  /** Hence a padded grid never has foreground on its border. */
  lemma PaddedHasNoBorderForeground(v: seq<int>, d: Dims)
    requires |v| == VoxelCount(d)
    ensures !BorderHasForeground(PaddedScalars(v, d), PadDims(d))
  {
    var w, p := PaddedScalars(v, d), PadDims(d);
    forall i, j, k | InGrid(p, i, j, k) && OnBorder(p, i, j, k)
      ensures Voxel(w, p, i, j, k) == 0
    {
      PaddedBorderIsBackground(v, d, i, j, k);
    }
  }

  /** Every value in the padded buffer is background or a value of the original buffer. */
  lemma PaddedValuesComeFromOriginal(v: seq<int>, d: Dims, n: int)
    requires |v| == VoxelCount(d) && 0 <= n < VoxelCount(PadDims(d))
    ensures PaddedScalars(v, d)[n] == 0 || PaddedScalars(v, d)[n] in v
  {
  }
}
