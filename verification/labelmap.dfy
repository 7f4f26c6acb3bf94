/**
 * The oriented image (a binary labelmap): a voxel grid with a scalar encoding,
 * an index extent and an image-to-world matrix. ImageVolume is its value; the
 * class OrientedImage is the object that the conversion rule deep-copies and
 * pads in place.
 */
module Labelmap {
  import opened Geometry
  import opened VoxelGrid

  /** The toolkit's voxel scalar encodings. */
  datatype ScalarType =
    | Char | SignedChar | UnsignedChar | Short | UnsignedShort
    | Int | UnsignedInt | Long | UnsignedLong | Float | Double

  /** The encodings the border scan accepts: unsigned char, unsigned short and short. */
  predicate IsSupportedScalarType(t: ScalarType)
  {
    t == UnsignedChar || t == UnsignedShort || t == Short
  }

  /**
   * A voxel value representable in encoding t. Only the integer encodings the
   * labelmap rule reads are constrained; the others are not modelled.
   */
  predicate FitsScalarType(t: ScalarType, value: int)
  {
    match t
    case UnsignedChar => 0 <= value < 0x100
    case UnsignedShort => 0 <= value < 0x1_0000
    case Short => -0x8000 <= value < 0x8000
    case Char => -0x80 <= value < 0x80
    case SignedChar => -0x80 <= value < 0x80
    case _ => true
  }

  /** Inclusive index bounds (iMin, iMax, jMin, jMax, kMin, kMax). */
  datatype Extent = Extent(iMin: int, iMax: int, jMin: int, jMax: int, kMin: int, kMax: int)

  /** The extent of an image with no voxels. */
  const EmptyExtent := Extent(0, -1, 0, -1, 0, -1)

  predicate WellFormedExtent(e: Extent)
  {
    e.iMax >= e.iMin - 1 && e.jMax >= e.jMin - 1 && e.kMax >= e.kMin - 1
  }

  function Dimensions(e: Extent): Dims
    requires WellFormedExtent(e)
  {
    Dims(e.iMax - e.iMin + 1, e.jMax - e.jMin + 1, e.kMax - e.kMin + 1)
  }

  predicate InExtent(e: Extent, x: int, y: int, z: int)
  {
    e.iMin <= x <= e.iMax && e.jMin <= y <= e.jMax && e.kMin <= z <= e.kMax
  }

  /** An oriented image as a value. */
  datatype ImageVolume = ImageVolume(scalarType: ScalarType, extent: Extent, scalars: seq<int>, imageToWorld: Matrix4)

  /** The buffer holds exactly one value of the encoding per voxel of the extent. */
  predicate ValidVolume(v: ImageVolume)
  {
    && WellFormedExtent(v.extent)
    && |v.scalars| == VoxelCount(Dimensions(v.extent))
    && forall n :: 0 <= n < |v.scalars| ==> FitsScalarType(v.scalarType, v.scalars[n])
  }

  /** The value of the voxel at absolute index (x, y, z). */
  function VoxelAt(v: ImageVolume, x: int, y: int, z: int): int
    requires ValidVolume(v) && InExtent(v.extent, x, y, z)
  {
    Voxel(v.scalars, Dimensions(v.extent), x - v.extent.iMin, y - v.extent.jMin, z - v.extent.kMin)
  }

  /**
   * What the border scan decides: the encoding is supported and some voxel on
   * the outer shell of the extent is foreground.
   */
  ghost predicate PaddingNecessary(v: ImageVolume)
    requires ValidVolume(v)
  {
    IsSupportedScalarType(v.scalarType) && BorderHasForeground(v.scalars, Dimensions(v.extent))
  }

  /** Each index bound moved one voxel outward. */
  function PadExtent(e: Extent): Extent
  {
    Extent(e.iMin - 1, e.iMax + 1, e.jMin - 1, e.jMax + 1, e.kMin - 1, e.kMax + 1)
  }

  /**
   * The image after constant padding with background: the extent grows by one
   * voxel on every side and the encoding and geometry are kept.
   */
  function PadVolume(v: ImageVolume): (r: ImageVolume)
    requires ValidVolume(v)
    ensures ValidVolume(r)
    ensures r.scalarType == v.scalarType && r.imageToWorld == v.imageToWorld
    ensures r.extent == PadExtent(v.extent)
    ensures Dimensions(r.extent) == PadDims(Dimensions(v.extent))
  {
    var d := Dimensions(v.extent);
    var w := PaddedScalars(v.scalars, d);
    assert forall n :: 0 <= n < |w| ==> FitsScalarType(v.scalarType, w[n]) by {
      forall n | 0 <= n < |w|
        ensures FitsScalarType(v.scalarType, w[n])
      {
        PaddedValuesComeFromOriginal(v.scalars, d, n);
      }
    }
    ImageVolume(v.scalarType, PadExtent(v.extent), w, v.imageToWorld)
  }

  /** Every dimension of the padded image is larger by exactly two. */
  lemma PadGrowsEachDimensionByTwo(v: ImageVolume)
    requires ValidVolume(v)
    ensures var d, p := Dimensions(v.extent), Dimensions(PadVolume(v).extent);
      p.nx == d.nx + 2 && p.ny == d.ny + 2 && p.nz == d.nz + 2
  {
  }

  /** Voxels at the original indices keep their values. */
  lemma PadKeepsVoxels(v: ImageVolume, x: int, y: int, z: int)
    requires ValidVolume(v) && InExtent(v.extent, x, y, z)
    ensures InExtent(PadVolume(v).extent, x, y, z)
    ensures VoxelAt(PadVolume(v), x, y, z) == VoxelAt(v, x, y, z)
  {
    var e := v.extent;
    PaddedKeepsVoxels(v.scalars, Dimensions(e), x - e.iMin, y - e.jMin, z - e.kMin);
  }

  /** Every voxel the padding adds is background. */
  lemma PadShellIsBackground(v: ImageVolume, x: int, y: int, z: int)
    requires ValidVolume(v)
    requires InExtent(PadVolume(v).extent, x, y, z) && !InExtent(v.extent, x, y, z)
    ensures VoxelAt(PadVolume(v), x, y, z) == 0
  {
    var e := PadVolume(v).extent;
    PaddedVoxel(v.scalars, Dimensions(v.extent), x - e.iMin, y - e.jMin, z - e.kMin);
  }

  /** A padded image never needs padding again. */
  lemma PaddedVolumeNeedsNoPadding(v: ImageVolume)
    requires ValidVolume(v)
    ensures !PaddingNecessary(PadVolume(v))
  {
    PaddedHasNoBorderForeground(v.scalars, Dimensions(v.extent));
  }

  /** The oriented image object, whose voxel buffer is replaced in place. */
  class OrientedImage {
    var scalarType: ScalarType
    var extent: Extent
    var scalars: array<int>
    var imageToWorld: Matrix4

    function Snapshot(): ImageVolume
      reads this, scalars
    {
      ImageVolume(scalarType, extent, scalars[..], imageToWorld)
    }

    ghost predicate Valid()
      reads this, scalars
    {
      ValidVolume(Snapshot())
    }

    /** A new image: empty extent, no voxels, double scalars, identity geometry. */
    constructor ()
      ensures Valid() && fresh(scalars)
      ensures Snapshot() == ImageVolume(Double, EmptyExtent, [], Identity)
    {
      scalarType := Double;
      extent := EmptyExtent;
      scalars := new int[0];
      imageToWorld := Identity;
    }

    /** Copies voxels, encoding, extent and geometry of source into a fresh buffer. */
    method DeepCopy(source: OrientedImage)
      requires source.Valid()
      modifies this
      ensures Valid() && fresh(scalars)
      ensures Snapshot() == old(source.Snapshot())
    {
      var v := source.Snapshot();
      scalarType, extent, imageToWorld := v.scalarType, v.extent, v.imageToWorld;
      scalars := new int[|v.scalars|](n requires 0 <= n < |v.scalars| => v.scalars[n]);
      assert scalars[..] == v.scalars;
    }

    /**
     * Copies the plain image part of source (voxels, encoding, extent) into a
     * fresh buffer and keeps this image's own geometry.
     */
    method DeepCopyImageData(source: ImageVolume)
      requires ValidVolume(source)
      modifies this
      ensures Valid() && fresh(scalars)
      ensures Snapshot() == source.(imageToWorld := old(imageToWorld))
    {
      scalarType, extent := source.scalarType, source.extent;
      scalars := new int[|source.scalars|](n requires 0 <= n < |source.scalars| => source.scalars[n]);
      assert scalars[..] == source.scalars;
    }
  }
}
