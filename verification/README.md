# Binary labelmap to closed surface conversion rule, in Dafny

This project models SlicerRT's rule that turns a binary labelmap (an oriented 3-D
image of voxels, background 0 and foreground non-zero) into a closed polygonal
surface in world coordinates. It covers the whole rule class:

- **Border scan** (`IsLabelmapPaddingNecessary`). A triple loop goes through every
  voxel index, skips the interior ones, and reads only the outer shell, using the offset `i + j*nx + k*nx*ny`. It
  stops at the first non-zero voxel. It answers false for a missing image and
  for an encoding other than unsigned char, unsigned short or short.
- **Padding** (`PadLabelmap`). The extent grows by one voxel outward on every
  side. The voxel buffer is replaced in place by one whose new shell is
  background.
- **Conversion** (`Convert`). It runs these steps in order:
  - checks that the source is an oriented image and the target is poly data;
  - pads a private deep copy when the scan asks for it;
  - reads the decimation factor;
  - saves the image-to-world matrix, then overrides the geometry to identity;
  - runs marching cubes at level 0.5 and fails when there are no polygons;
  - decimates only for a factor above 0;
  - maps every vertex by the saved matrix and shallow-copies the result into the target.
- **Small helpers**: the fixed cost estimate, the two factories that make an
  empty object from a name, and the default parameter entry.

The modules are:

- `Geometry` (`geometry.dfy`): points, 4x4 matrices and the linear transform.
- `VoxelGrid` (`voxel_grid.dfy`):
  - the flat-buffer indexing and its inverse;
  - the border predicate;
  - the padded buffer.
- `Labelmap` (`labelmap.dfy`):
  - encodings and extents;
  - `ImageVolume`, the value of an oriented image;
  - the `OrientedImage` class, whose `array` buffer is replaced in place.
- `Surface` (`surface.dfy`): the `Mesh` value and the `PolyData` class.
- `ConversionRule` (`conversion_rule.dfy`):
  - the rule class;
  - `ConvertedSurface`, the specification function that `Convert` is proved against;
  - the lemmas about it.

Marching cubes (`vtkMarchingCubes`), the decimator (`vtkDecimatePro`) and the
parsing of the decimation factor are library code. `Convert` receives them as
function parameters. An exception caught by the rule is a `Failure` result of
the corresponding function.

Three behaviours of the source are easy to assume otherwise; the model
follows the source in each:

- **Padded copy on failure.** The padded copy is released only on the success
  path (lines 202-206). The early returns at lines 154, 159 and 179 skip the
  release. `Convert` reports this through two ghost outputs:
  `paddedLabelmapReleased` holds exactly when the conversion succeeded and a
  padded copy was made.
- **Target after failure.** The target is left untouched on every failure, not
  only on a type mismatch. The only write to it is the shallow copy at line 200.
- **Unsupported encoding.** The conversion does not fail. The scan answers "no
  padding" and the conversion goes on with the unpadded image
  (`UnsupportedEncodingIsNotPadded`).

## Model

| member | source | states |
|---|---|---|
| `ConversionRule.BinaryLabelmapToClosedSurfaceConversionRule.constructor` | SegmentationCore/vtkBinaryLabelmapToClosedSurfaceConversionRule.cxx:41-44 | the parameter table holds the decimation factor with default "0.0" and its description |
| `ConversionRule.BinaryLabelmapToClosedSurfaceConversionRule.GetConversionCost` | SegmentationCore/vtkBinaryLabelmapToClosedSurfaceConversionRule.cxx:52-56 | the cost is 500 for every pair of arguments, null included |
| `ConversionRule.KindByRepresentationName` | SegmentationCore/vtkBinaryLabelmapToClosedSurfaceConversionRule.cxx:59-73 | an image exactly for the source name; poly data exactly for the target name when it differs from the source name (the source check wins); nothing otherwise |
| `ConversionRule.BinaryLabelmapToClosedSurfaceConversionRule.ConstructRepresentationObjectByRepresentation` | SegmentationCore/vtkBinaryLabelmapToClosedSurfaceConversionRule.cxx:59-73 | returns a new empty object of the kind the representation name selects, or null |
| `ConversionRule.KindByClassName` | SegmentationCore/vtkBinaryLabelmapToClosedSurfaceConversionRule.cxx:76-90 | an image exactly for "vtkOrientedImageData", poly data exactly for "vtkPolyData", nothing for any other string |
| `ConversionRule.KindByClassNameRoundTrip` | SegmentationCore/vtkBinaryLabelmapToClosedSurfaceConversionRule.cxx:76-90 | each kind of object is produced again from its own class name |
| `ConversionRule.BinaryLabelmapToClosedSurfaceConversionRule.ConstructRepresentationObjectByClass` | SegmentationCore/vtkBinaryLabelmapToClosedSurfaceConversionRule.cxx:76-90 | returns a new empty object of the kind the class name selects, or null |
| `ConversionRule.BinaryLabelmapToClosedSurfaceConversionRule.IsLabelmapPaddingNecessary` | SegmentationCore/vtkBinaryLabelmapToClosedSurfaceConversionRule.cxx:212-273 | true exactly when the image is present, its encoding is unsigned char, unsigned short or short, and some voxel on the outer shell is non-zero |
| `VoxelGrid.Offset` | SegmentationCore/vtkBinaryLabelmapToClosedSurfaceConversionRule.cxx:253 | the offset of every voxel of the grid lies inside the buffer of nx*ny*nz values |
| `VoxelGrid.OffsetInjective` | SegmentationCore/vtkBinaryLabelmapToClosedSurfaceConversionRule.cxx:253 | distinct voxels have distinct offsets |
| `VoxelGrid.DecodeOffset` | SegmentationCore/vtkBinaryLabelmapToClosedSurfaceConversionRule.cxx:253 | the index is recovered from its offset |
| `VoxelGrid.OffsetDecode` | SegmentationCore/vtkBinaryLabelmapToClosedSurfaceConversionRule.cxx:253 | every offset of the buffer is the offset of exactly the voxel decoded from it |
| `VoxelGrid.EmptyGridHasNoBorderForeground` | SegmentationCore/vtkBinaryLabelmapToClosedSurfaceConversionRule.cxx:239-272 | a grid with a zero dimension has no foreground on its border |
| `VoxelGrid.BorderForegroundDependsOnlyOnBorder` | SegmentationCore/vtkBinaryLabelmapToClosedSurfaceConversionRule.cxx:245-249 | buffers that agree on the outer shell get the same scan answer |
| `VoxelGrid.BorderForegroundIgnoresInterior` | SegmentationCore/vtkBinaryLabelmapToClosedSurfaceConversionRule.cxx:245-249 | changing a voxel strictly inside on all three axes leaves the scan answer unchanged |
| `VoxelGrid.PaddedScalars` | SegmentationCore/vtkBinaryLabelmapToClosedSurfaceConversionRule.cxx:293-296 | the padded buffer has (nx+2)(ny+2)(nz+2) values |
| `VoxelGrid.PaddedVoxel` | SegmentationCore/vtkBinaryLabelmapToClosedSurfaceConversionRule.cxx:293-296 | each padded voxel is the original voxel one step back on each axis, or background |
| `VoxelGrid.PaddedKeepsVoxels` | SegmentationCore/vtkBinaryLabelmapToClosedSurfaceConversionRule.cxx:293-296 | every original voxel keeps its value in the padded buffer |
| `VoxelGrid.PaddedBorderIsBackground` | SegmentationCore/vtkBinaryLabelmapToClosedSurfaceConversionRule.cxx:293 | every voxel on the outer shell of the padded grid is background |
| `VoxelGrid.PaddedHasNoBorderForeground` | SegmentationCore/vtkBinaryLabelmapToClosedSurfaceConversionRule.cxx:293 | a padded buffer has no foreground on its border |
| `VoxelGrid.PaddedValuesComeFromOriginal` | SegmentationCore/vtkBinaryLabelmapToClosedSurfaceConversionRule.cxx:293 | each padded value is background or a value of the original buffer |
| `Labelmap.PadVolume` | SegmentationCore/vtkBinaryLabelmapToClosedSurfaceConversionRule.cxx:285-296 | the padded image has extent (e0-1, e1+1, e2-1, e3+1, e4-1, e5+1) and the same encoding and geometry, and every value fits the encoding |
| `Labelmap.PadGrowsEachDimensionByTwo` | SegmentationCore/vtkBinaryLabelmapToClosedSurfaceConversionRule.cxx:293 | each dimension grows by exactly two |
| `Labelmap.PadKeepsVoxels` | SegmentationCore/vtkBinaryLabelmapToClosedSurfaceConversionRule.cxx:285-296 | a voxel at an original index keeps its value at the same index |
| `Labelmap.PadShellIsBackground` | SegmentationCore/vtkBinaryLabelmapToClosedSurfaceConversionRule.cxx:285-296 | every voxel inside the new extent but outside the old one is background |
| `Labelmap.PaddedVolumeNeedsNoPadding` | SegmentationCore/vtkBinaryLabelmapToClosedSurfaceConversionRule.cxx:212-297 | the scan of a padded image answers false |
| `Labelmap.OrientedImage.constructor` | SegmentationCore/vtkBinaryLabelmapToClosedSurfaceConversionRule.cxx:113 | a new image has an empty extent, no voxels and identity geometry |
| `Labelmap.OrientedImage.DeepCopy` | SegmentationCore/vtkBinaryLabelmapToClosedSurfaceConversionRule.cxx:114 | the copy equals the source image, in a buffer of its own |
| `Labelmap.OrientedImage.DeepCopyImageData` | SegmentationCore/vtkBinaryLabelmapToClosedSurfaceConversionRule.cxx:296 | voxels, encoding and extent are taken from the padder output into a new buffer; the image's geometry is kept |
| `ConversionRule.BinaryLabelmapToClosedSurfaceConversionRule.PadLabelmap` | SegmentationCore/vtkBinaryLabelmapToClosedSurfaceConversionRule.cxx:276-297 | the image becomes the padded image: extent grown by one on every side, new shell background, in a fresh buffer |
| `ConversionRule.BinaryLabelmapToClosedSurfaceConversionRule.PadCopyIfNecessary` | SegmentationCore/vtkBinaryLabelmapToClosedSurfaceConversionRule.cxx:109-117 | a fresh padded copy exactly when the scan answers true, the caller's image itself otherwise; the caller's image is not changed |
| `ConversionRule.ExtractionInput` | SegmentationCore/vtkBinaryLabelmapToClosedSurfaceConversionRule.cxx:109-117 | the image given to extraction is a valid volume: the padded copy when the scan answers true, the labelmap itself otherwise |
| `ConversionRule.ExtractedMesh` | SegmentationCore/vtkBinaryLabelmapToClosedSurfaceConversionRule.cxx:127-155 | the marching-cubes output (one contour at 0.5; no scalars, gradients or normals) for the extraction input with its geometry set to identity; what it depends on is stated by `ExtractionIgnoresGeometry` |
| `ConversionRule.ExtractionIgnoresGeometry` | SegmentationCore/vtkBinaryLabelmapToClosedSurfaceConversionRule.cxx:127-133 | labelmaps that differ only in their image-to-world matrix give the same extracted mesh, because extraction runs in voxel-index space |
| `ConversionRule.ConvertedSurface` | SegmentationCore/vtkBinaryLabelmapToClosedSurfaceConversionRule.cxx:120-200 | the outcome `Convert` is proved against; it fails with an extraction error exactly when marching cubes throws, with no polygons exactly when the extraction is empty, and with a decimation error exactly when the factor is above 0 and decimating a non-empty extraction throws |
| `ConversionRule.ExtractionInputHasBackgroundBorder` | SegmentationCore/vtkBinaryLabelmapToClosedSurfaceConversionRule.cxx:109-117 | for a supported encoding, the image given to marching cubes has no foreground on its border |
| `ConversionRule.UnsupportedEncodingIsNotPadded` | SegmentationCore/vtkBinaryLabelmapToClosedSurfaceConversionRule.cxx:219-227 | an image of an unsupported encoding goes to extraction unpadded |
| `ConversionRule.ExtractionInputKeepsLabelmap` | SegmentationCore/vtkBinaryLabelmapToClosedSurfaceConversionRule.cxx:109-117 | the image given to extraction keeps every labelmap voxel at its own index, its encoding and its image-to-world matrix, and holds background elsewhere |
| `ConversionRule.WithIdentityGeometry` | SegmentationCore/vtkBinaryLabelmapToClosedSurfaceConversionRule.cxx:129-133 | the copy given to marching cubes has identity geometry and the same voxels, encoding and extent |
| `ConversionRule.ParameterValue` | SegmentationCore/vtkBinaryLabelmapToClosedSurfaceConversionRule.cxx:120-121 | the decimation factor text is the stored value, or empty when the key is missing |
| `ConversionRule.WithLookedUp` | SegmentationCore/vtkBinaryLabelmapToClosedSurfaceConversionRule.cxx:120-121 | the look-up keeps every entry and inserts an empty one for a missing key |
| `ConversionRule.DecimationSettingsFor` | SegmentationCore/vtkBinaryLabelmapToClosedSurfaceConversionRule.cxx:165-171 | the decimator runs with feature angle 60, no splitting, topology preserved, maximum error 1 and the factor as target reduction |
| `ConversionRule.EmptyExtractionFails` | SegmentationCore/vtkBinaryLabelmapToClosedSurfaceConversionRule.cxx:156-160 | an extraction with zero polygons fails the conversion, whatever the factor |
| `ConversionRule.DecimatorUnusedUnlessFactorPositive` | SegmentationCore/vtkBinaryLabelmapToClosedSurfaceConversionRule.cxx:162-195 | with a factor of zero or less, the decimator takes no part in the outcome |
| `ConversionRule.ConvertedSurfaceIsMappedMesh` | SegmentationCore/vtkBinaryLabelmapToClosedSurfaceConversionRule.cxx:120-200 | a converted surface comes from an extraction with polygons. It is that mesh (decimated when the factor is above 0) with every vertex mapped by the labelmap's own image-to-world matrix |
| `ConversionRule.IdentityGeometryKeepsExtractedMesh` | SegmentationCore/vtkBinaryLabelmapToClosedSurfaceConversionRule.cxx:123-197 | with identity geometry and no decimation, the surface is exactly the extracted mesh |
| `ConversionRule.BinaryLabelmapToClosedSurfaceConversionRule.Convert` | SegmentationCore/vtkBinaryLabelmapToClosedSurfaceConversionRule.cxx:93-209 | wrong kinds of objects: fails and changes nothing; otherwise succeeds exactly when `ConvertedSurface` of the labelmap as it was on entry yields a surface, which the target then holds; the target is unchanged on failure, the caller's labelmap is never changed, and the padded copy is made exactly when the scan answers true and released only on success |
| `Surface.TransformMesh` | SegmentationCore/vtkBinaryLabelmapToClosedSurfaceConversionRule.cxx:184-197 | every vertex is mapped by the matrix; polygons and vertex count are kept |
| `Surface.TransformMeshIdentity` | SegmentationCore/vtkBinaryLabelmapToClosedSurfaceConversionRule.cxx:127-133 | mapping by the identity matrix gives the same mesh back |
| `Surface.PolyData.constructor` | SegmentationCore/vtkBinaryLabelmapToClosedSurfaceConversionRule.cxx:84 | a new poly data object holds no points and no polygons |
| `Surface.PolyData.ShallowCopy` | SegmentationCore/vtkBinaryLabelmapToClosedSurfaceConversionRule.cxx:200 | the target takes on the new mesh's points and polygons |
| `Geometry.TransformPoint` | SegmentationCore/vtkBinaryLabelmapToClosedSurfaceConversionRule.cxx:184-185 | a point is mapped by the upper three rows of the matrix applied to (x, y, z, 1) |
| `Geometry.TransformPoints` | SegmentationCore/vtkBinaryLabelmapToClosedSurfaceConversionRule.cxx:196-197 | every point is mapped, in order, and the count is kept |
| `Geometry.TransformPointIdentity` | SegmentationCore/vtkBinaryLabelmapToClosedSurfaceConversionRule.cxx:131-133 | the identity matrix leaves every point in place |
| `Geometry.TransformPointsIdentity` | SegmentationCore/vtkBinaryLabelmapToClosedSurfaceConversionRule.cxx:131-133 | the identity matrix leaves every point list in place |
| `Geometry.TransformPointIgnoresBottomRow` | SegmentationCore/vtkBinaryLabelmapToClosedSurfaceConversionRule.cxx:184-185 | matrices that agree on the upper three rows map points alike |
| `Geometry.TransformPointScaleTranslate` | SegmentationCore/vtkBinaryLabelmapToClosedSurfaceConversionRule.cxx:184-197 | a scaled and translated frame scales and shifts each point by exactly that |

`Convert` guarantees the following:

- **Wrong kinds.** If the source is not an oriented image or the target is not
  poly data, the call fails and changes nothing.
- **Right kinds.**
  - The call succeeds exactly when `ConvertedSurface` of the labelmap, as it was
    on entry, yields a surface.
  - The target then holds that surface.
  - The parameter table is looked up, which inserts an empty entry only when
    the key was missing.
- **Failure.** The target is unchanged on every failure.
- **Source.** The caller's labelmap is never changed.
- **Padded copy.** A padded copy is made exactly when the scan answers true,
  and it is released only on success.

## Left out

- IsLabelmapPaddingNecessary: does not model the 32-bit `int` arithmetic of the
  offset at lines 253, 257 and 261. The source computes
  `i + j*dimensions[0] + k*dimensions[0]*dimensions[1]` in `int`. For a grid of
  more than 2^31-1 voxels (1300 x 1300 x 1300, say) that product overflows, which
  is undefined behaviour and in practice reads outside the buffer. The model's
  integers are unbounded, so its answer is the intended one for every grid size.
  It is faithful to the source only for grids of at most 2^31-1 voxels.
- Offset: unbounded, as above, and it counts one scalar per voxel. The source's
  offset ignores the number of scalar components. On an image with several
  components per voxel it would read interleaved values at the wrong voxels.
  `ValidVolume` demands exactly one value per voxel, so the model covers
  single-component labelmaps only.
- **Header not modelled.** vtkBinaryLabelmapToClosedSurfaceConversionRule.h is
  not part of this model. Three names it declares are taken as the constants
  "Binary labelmap", "Closed surface" and "Decimation factor".
- **Marching cubes and decimation.** The internals of `vtkMarchingCubes` and
  `vtkDecimatePro` are foreign floating-point library code, so they are function
  parameters. Nothing is proved about their geometry. In particular, the model
  does not show that the extracted surface is closed, does not bound the
  decimation error, and does not show that a larger reduction never yields more
  polygons. The model proves only what the rule itself guarantees: the
  extraction input has a background border, and an empty extraction fails.
- **Parsing the factor.** `DeserializeFloatingPointConversionParameter` is not
  part of this model. It is the parameter `deserialize`, applied to the stored
  text.
- **Padding filter and deep copy.** `vtkImageConstantPad` is modelled by its
  result `PadVolume`: the extent grows by one and the new shell holds 0.
  `vtkImageData::DeepCopy` is modelled by `DeepCopyImageData`. The padder output
  keeps the input's origin and spacing, and this deep copy keeps the oriented
  image's directions. So the whole image-to-world matrix is carried over
  unchanged; origin, spacing and directions are not modelled separately.
- **Voxel encodings.** The voxel buffer holds each voxel's value as an integer
  of its encoding's range. The byte-level reinterpretation of the buffer through
  `unsigned char*`, `unsigned short*` or `short*` pointers is therefore one read.
  Floating-point encodings are not modelled; the scan never reads them.
- **Exceptions in the transform filter.** Exceptions thrown by
  `vtkTransformPolyDataFilter::Update` are not modelled: the rule does not catch
  them.
- **Points as reals.** Points and matrices use Dafny `real`, not IEEE doubles.
- **Process plumbing.** These are left out: logging (`vtkErrorMacro`),
  reference counting, smart pointers, and the VTK-version `#if` branches. The
  base-class parameter table operations other than the look-up at lines 120-121
  are left out too.
- **Release of the padded copy.** The release (`Delete`) is a ghost output of
  `Convert`, not a deallocation.
- **Padding helper.** `PadCopyIfNecessary` groups lines 109-117 of `Convert`
  into a method of their own. This keeps the proof of `Convert` small and does
  not change what `Convert` does.
