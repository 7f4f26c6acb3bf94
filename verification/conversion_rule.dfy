/**
 * The conversion rule from a binary labelmap (an oriented image) to a closed
 * surface (poly data): border scan, padding of a private copy, surface
 * extraction in voxel-index space, optional decimation, and the final mapping
 * of every vertex into world space by the labelmap's image-to-world matrix.
 *
 * Marching cubes, the decimator and the parsing of the decimation factor are
 * library code: Convert receives them as function parameters, and a library
 * exception is a Failure result.
 */
module ConversionRule {
  import opened Geometry
  import opened VoxelGrid
  import opened Labelmap
  import opened Surface

  /** A library stage's output, or the exception it threw. */
  datatype Result<T> = Success(value: T) | Failure

  /** The generic data object pointer the rule receives, after a safe down-cast. */
  datatype DataObject =
    | NullObject
    | OrientedImageData(image: OrientedImage)
    | PolyDataObject(polyData: PolyData)
    | OtherDataObject

  /** The kind of object a factory makes. */
  datatype RepresentationKind = OrientedImageKind | PolyDataKind | NoObject

  function KindOf(obj: DataObject): RepresentationKind
  {
    match obj
    case OrientedImageData(_) => OrientedImageKind
    case PolyDataObject(_) => PolyDataKind
    case _ => NoObject
  }

  /** The representation names this rule converts between. */
  const SourceRepresentationName := "Binary labelmap"
  const TargetRepresentationName := "Closed surface"

  const DecimationFactorParameterName := "Decimation factor"
  const DefaultDecimationFactor := "0.0"
  const DecimationFactorDescription :=
    "Desired reduction in the total number of polygons (e.g., if set to 0.9, then reduce the data set to 10% of its original size)"

  /** The class name of each kind of object. */
  function ClassName(k: RepresentationKind): string
  {
    match k
    case OrientedImageKind => "vtkOrientedImageData"
    case PolyDataKind => "vtkPolyData"
    case NoObject => ""
  }

  /** The kind made for a class name: an image, poly data, or nothing. */
  function KindByClassName(className: string): (k: RepresentationKind)
    ensures k == OrientedImageKind <==> className == "vtkOrientedImageData"
    ensures k == PolyDataKind <==> className == "vtkPolyData"
  {
    if className == "vtkOrientedImageData" then OrientedImageKind
    else if className == "vtkPolyData" then PolyDataKind
    else NoObject
  }

  /** Each kind of object is made again from its own class name. */
  lemma KindByClassNameRoundTrip(k: RepresentationKind)
    requires k != NoObject
    ensures KindByClassName(ClassName(k)) == k
  {
  }

  /**
   * The kind made for a representation name. The source name is compared
   * first, so it decides when the two names coincide.
   */
  function KindByRepresentationName(name: string, sourceName: string, targetName: string): (k: RepresentationKind)
    ensures k == OrientedImageKind <==> name == sourceName
    ensures k == PolyDataKind <==> name != sourceName && name == targetName
  {
    if name == sourceName then OrientedImageKind
    else if name == targetName then PolyDataKind
    else NoObject
  }

  /** Settings for the iso-surface extraction: one contour at 0.5, no scalars, gradients or normals. */
  datatype ContourSettings = ContourSettings(
    numberOfContours: nat, value: real, computeScalars: bool, computeGradients: bool, computeNormals: bool)

  const MarchingCubesSettings := ContourSettings(1, 0.5, false, false, false)

  /** Settings for the decimator. */
  datatype DecimationSettings = DecimationSettings(
    featureAngle: real, splitting: bool, preserveTopology: bool, maximumError: real, targetReduction: real)

  /** Feature angle 60, no splitting, topology preserved, maximum error 1, the given target reduction. */
  function DecimationSettingsFor(factor: real): (s: DecimationSettings)
    ensures s.targetReduction == factor && s.preserveTopology && !s.splitting
    ensures s.featureAngle == 60.0 && s.maximumError == 1.0
  {
    DecimationSettings(60.0, false, true, 1.0, factor)
  }

  /** Marching cubes over an image; Failure is an exception thrown by the update. */
  type SurfaceExtractor = (ImageVolume, ContourSettings) -> Result<Mesh>

  /** The decimator over a mesh; Failure is an exception thrown by the update. */
  type MeshDecimator = (Mesh, DecimationSettings) -> Result<Mesh>

  /** Why a conversion of a well-typed pair failed. */
  datatype ConversionError = ExtractionError | NoPolygons | DecimationError

  datatype ConversionOutcome = Converted(surface: Mesh) | Failed(error: ConversionError)

  /** The image that is given to surface extraction: a padded copy when the scan asks for one. */
  ghost function ExtractionInput(v: ImageVolume): (r: ImageVolume)
    requires ValidVolume(v)
    ensures ValidVolume(r)
  {
    if PaddingNecessary(v) then PadVolume(v) else v
  }

  /** The same image with its geometry overridden to identity, so that extraction runs in voxel-index space. */
  function WithIdentityGeometry(v: ImageVolume): (r: ImageVolume)
    ensures r.imageToWorld == Identity
    ensures r.scalarType == v.scalarType && r.extent == v.extent && r.scalars == v.scalars
  {
    v.(imageToWorld := Identity)
  }

  /** The output of marching cubes for labelmap v. */
  ghost function ExtractedMesh(v: ImageVolume, extract: SurfaceExtractor): Result<Mesh>
    requires ValidVolume(v)
  {
    extract(WithIdentityGeometry(ExtractionInput(v)), MarchingCubesSettings)
  }

  /**
   * What a conversion of labelmap v produces, given the parsed decimation
   * factor. Each failure names the step that failed: extraction, an empty
   * extraction, or decimation (tried only for a positive factor).
   */
  ghost function ConvertedSurface(v: ImageVolume, factor: real, extract: SurfaceExtractor, decimate: MeshDecimator): (r: ConversionOutcome)
    requires ValidVolume(v)
    ensures r == Failed(ExtractionError) <==> ExtractedMesh(v, extract).Failure?
    ensures r == Failed(NoPolygons) <==>
      ExtractedMesh(v, extract).Success? && NumberOfPolys(ExtractedMesh(v, extract).value) == 0
    ensures r == Failed(DecimationError) <==>
      && ExtractedMesh(v, extract).Success? && NumberOfPolys(ExtractedMesh(v, extract).value) > 0
      && factor > 0.0 && decimate(ExtractedMesh(v, extract).value, DecimationSettingsFor(factor)).Failure?
  {
    var input := ExtractionInput(v);
    match ExtractedMesh(v, extract)
    case Failure => Failed(ExtractionError)
    case Success(m) =>
      if NumberOfPolys(m) == 0 then Failed(NoPolygons)
      else if factor > 0.0 then
        match decimate(m, DecimationSettingsFor(factor))
        case Failure => Failed(DecimationError)
        case Success(dm) => Converted(TransformMesh(input.imageToWorld, dm))
      else Converted(TransformMesh(input.imageToWorld, m))
  }

  // ---------------------------------------------------------------------------
  // Properties of the conversion

  /** The image given to extraction never has foreground on its border, unless its encoding is unsupported. */
  lemma ExtractionInputHasBackgroundBorder(v: ImageVolume)
    requires ValidVolume(v) && IsSupportedScalarType(v.scalarType)
    ensures !BorderHasForeground(ExtractionInput(v).scalars, Dimensions(ExtractionInput(v).extent))
  {
    if PaddingNecessary(v) {
      PaddedVolumeNeedsNoPadding(v);
    }
  }

  /** An unsupported encoding is never padded, whatever its border holds. */
  lemma UnsupportedEncodingIsNotPadded(v: ImageVolume)
    requires ValidVolume(v) && !IsSupportedScalarType(v.scalarType)
    ensures ExtractionInput(v) == v
  {
  }

  /**
   * The image given to extraction holds every voxel of the labelmap at its own
   * index, holds background everywhere else, and keeps the labelmap's encoding
   * and image-to-world matrix.
   */
  lemma ExtractionInputKeepsLabelmap(v: ImageVolume, x: int, y: int, z: int)
    requires ValidVolume(v)
    ensures ExtractionInput(v).scalarType == v.scalarType
    ensures ExtractionInput(v).imageToWorld == v.imageToWorld
    ensures InExtent(v.extent, x, y, z) ==>
      InExtent(ExtractionInput(v).extent, x, y, z) && VoxelAt(ExtractionInput(v), x, y, z) == VoxelAt(v, x, y, z)
    ensures InExtent(ExtractionInput(v).extent, x, y, z) && !InExtent(v.extent, x, y, z) ==>
      VoxelAt(ExtractionInput(v), x, y, z) == 0
  {
    if PaddingNecessary(v) {
      if InExtent(v.extent, x, y, z) {
        PadKeepsVoxels(v, x, y, z);
      } else if InExtent(PadVolume(v).extent, x, y, z) {
        PadShellIsBackground(v, x, y, z);
      }
    }
  }

  /**
   * A converted surface is the extracted mesh (decimated when the factor is
   * positive) with every vertex mapped by the labelmap's own image-to-world
   * matrix, and extraction produced at least one polygon.
   */
  lemma ConvertedSurfaceIsMappedMesh(v: ImageVolume, factor: real, extract: SurfaceExtractor, decimate: MeshDecimator)
    requires ValidVolume(v) && ConvertedSurface(v, factor, extract, decimate).Converted?
    ensures ExtractedMesh(v, extract).Success? && NumberOfPolys(ExtractedMesh(v, extract).value) > 0
    ensures factor > 0.0 ==>
      var dm := decimate(ExtractedMesh(v, extract).value, DecimationSettingsFor(factor));
      dm.Success? && ConvertedSurface(v, factor, extract, decimate).surface == TransformMesh(v.imageToWorld, dm.value)
    ensures factor <= 0.0 ==>
      ConvertedSurface(v, factor, extract, decimate).surface == TransformMesh(v.imageToWorld, ExtractedMesh(v, extract).value)
  {
    ExtractionInputKeepsLabelmap(v, 0, 0, 0);
  }

  /**
   * Surface extraction runs in voxel-index space: labelmaps that differ only in
   * their image-to-world matrix give the extractor the same image.
   */
  lemma ExtractionIgnoresGeometry(v: ImageVolume, matrix: Matrix4, extract: SurfaceExtractor)
    requires ValidVolume(v)
    ensures ValidVolume(v.(imageToWorld := matrix))
    ensures ExtractedMesh(v.(imageToWorld := matrix), extract) == ExtractedMesh(v, extract)
  {
  }

  /** An extraction without polygons fails the conversion, whatever the decimation factor. */
  lemma EmptyExtractionFails(v: ImageVolume, factor: real, extract: SurfaceExtractor, decimate: MeshDecimator)
    requires ValidVolume(v)
    requires ExtractedMesh(v, extract).Success? && NumberOfPolys(ExtractedMesh(v, extract).value) == 0
    ensures ConvertedSurface(v, factor, extract, decimate) == Failed(NoPolygons)
  {
  }

  /** With a factor of zero or less the decimator takes no part in the outcome. */
  lemma DecimatorUnusedUnlessFactorPositive(v: ImageVolume, factor: real, extract: SurfaceExtractor, decimate: MeshDecimator, decimate': MeshDecimator)
    requires ValidVolume(v) && factor <= 0.0
    ensures ConvertedSurface(v, factor, extract, decimate) == ConvertedSurface(v, factor, extract, decimate')
  {
  }

  /** When the labelmap's geometry is already identity and there is no decimation, the surface is the extracted mesh itself. */
  lemma IdentityGeometryKeepsExtractedMesh(v: ImageVolume, factor: real, extract: SurfaceExtractor, decimate: MeshDecimator)
    requires ValidVolume(v) && v.imageToWorld == Identity && factor <= 0.0
    requires ConvertedSurface(v, factor, extract, decimate).Converted?
    ensures ConvertedSurface(v, factor, extract, decimate).surface == ExtractedMesh(v, extract).value
  {
    ConvertedSurfaceIsMappedMesh(v, factor, extract, decimate);
    TransformMeshIdentity(ExtractedMesh(v, extract).value);
  }

  // ---------------------------------------------------------------------------
  // Parameters

  /** The text of a parameter; a missing key reads as the empty string. */
  function ParameterValue(parameters: map<string, (string, string)>, name: string): (s: string)
    ensures name in parameters ==> s == parameters[name].0
    ensures name !in parameters ==> s == ""
  {
    if name in parameters then parameters[name].0 else ""
  }

  /** The parameter table after a look-up by name, which inserts an empty entry for a missing key. */
  function WithLookedUp(parameters: map<string, (string, string)>, name: string): (r: map<string, (string, string)>)
    ensures name in r && r.Keys == parameters.Keys + {name}
    ensures forall key :: key in parameters ==> r[key] == parameters[key]
    ensures name !in parameters ==> r[name] == ("", "")
  {
    if name in parameters then parameters else parameters[name := ("", "")]
  }

  function TargetFrame(target: DataObject): set<object>
  {
    if target.PolyDataObject? then {target.polyData} else {}
  }

  // ---------------------------------------------------------------------------
  // The rule

  class BinaryLabelmapToClosedSurfaceConversionRule {
    /** Parameter name to (value text, description). */
    var conversionParameters: map<string, (string, string)>

    /** The rule's one parameter, the decimation factor, defaults to "0.0". */
    constructor ()
      ensures conversionParameters == map[DecimationFactorParameterName := (DefaultDecimationFactor, DecimationFactorDescription)]
    {
      conversionParameters := map[DecimationFactorParameterName := (DefaultDecimationFactor, DecimationFactorDescription)];
    }

    /** A rough, input-independent estimate in milliseconds. */
    function GetConversionCost(source: DataObject, target: DataObject): (cost: nat)
      ensures cost == 500
    {
      500
    }

    /** A new, empty object of the kind named by a representation name, or none. */
    method ConstructRepresentationObjectByRepresentation(representationName: string) returns (obj: DataObject)
      ensures KindOf(obj) == KindByRepresentationName(representationName, SourceRepresentationName, TargetRepresentationName)
      ensures obj.NullObject? || obj.OrientedImageData? || obj.PolyDataObject?
      ensures obj.OrientedImageData? ==> fresh(obj.image) && obj.image.Valid() && obj.image.Snapshot().scalars == []
      ensures obj.PolyDataObject? ==> fresh(obj.polyData) && obj.polyData.Contents() == EmptyMesh
    {
      if representationName == SourceRepresentationName {
        var image := new OrientedImage();
        obj := OrientedImageData(image);
      } else if representationName == TargetRepresentationName {
        var polyData := new PolyData();
        obj := PolyDataObject(polyData);
      } else {
        obj := NullObject;
      }
    }

    /** A new, empty object of the named class, or none. */
    method ConstructRepresentationObjectByClass(className: string) returns (obj: DataObject)
      ensures KindOf(obj) == KindByClassName(className)
      ensures obj.NullObject? || obj.OrientedImageData? || obj.PolyDataObject?
      ensures obj.OrientedImageData? ==> fresh(obj.image) && obj.image.Valid() && obj.image.Snapshot().scalars == []
      ensures obj.PolyDataObject? ==> fresh(obj.polyData) && obj.polyData.Contents() == EmptyMesh
    {
      if className == "vtkOrientedImageData" {
        var image := new OrientedImage();
        obj := OrientedImageData(image);
      } else if className == "vtkPolyData" {
        var polyData := new PolyData();
        obj := PolyDataObject(polyData);
      } else {
        obj := NullObject;
      }
    }

    /**
     * Whether some voxel on the outer shell of the labelmap is foreground. A
     * missing image, or an encoding other than unsigned char, unsigned short
     * or short, gives false.
     */
    method IsLabelmapPaddingNecessary(binaryLabelMap: OrientedImage?) returns (necessary: bool)
      requires binaryLabelMap != null ==> binaryLabelMap.Valid()
      ensures necessary <==> binaryLabelMap != null && PaddingNecessary(binaryLabelMap.Snapshot())
    {
      if binaryLabelMap == null {
        return false;
      }
      if !IsSupportedScalarType(binaryLabelMap.scalarType) {
        return false;
      }
      var d := Dimensions(binaryLabelMap.extent);
      var scalars := binaryLabelMap.scalars;
      ghost var v := scalars[..];
      for i := 0 to d.nx
        invariant forall a, b, c :: 0 <= a < i && InGrid(d, a, b, c) && OnBorder(d, a, b, c) ==> Voxel(v, d, a, b, c) == 0
      {
        for j := 0 to d.ny
          invariant forall a, b, c :: 0 <= a < i && InGrid(d, a, b, c) && OnBorder(d, a, b, c) ==> Voxel(v, d, a, b, c) == 0
          invariant forall b, c :: 0 <= b < j && InGrid(d, i, b, c) && OnBorder(d, i, b, c) ==> Voxel(v, d, i, b, c) == 0
        {
          for k := 0 to d.nz
            invariant forall a, b, c :: 0 <= a < i && InGrid(d, a, b, c) && OnBorder(d, a, b, c) ==> Voxel(v, d, a, b, c) == 0
            invariant forall b, c :: 0 <= b < j && InGrid(d, i, b, c) && OnBorder(d, i, b, c) ==> Voxel(v, d, i, b, c) == 0
            invariant forall c :: 0 <= c < k && InGrid(d, i, j, c) && OnBorder(d, i, j, c) ==> Voxel(v, d, i, j, c) == 0
          {
            if i != 0 && i != d.nx - 1 && j != 0 && j != d.ny - 1 && k != 0 && k != d.nz - 1 {
              // not a border voxel
              continue;
            }
            // The buffer holds each voxel's value in its own encoding, so the
            // three typed reads of the three supported encodings are one read.
            var voxelValue := scalars[Offset(d, i, j, k)];
            if voxelValue != 0 {
              assert Voxel(v, d, i, j, k) != 0;
              return true;
            }
          }
        }
      }
      return false;
    }

    /**
     * Grows the labelmap by one background voxel on every side, replacing its
     * voxel buffer; its geometry is kept.
     */
    method PadLabelmap(binaryLabelMap: OrientedImage)
      requires binaryLabelMap.Valid()
      modifies binaryLabelMap
      ensures binaryLabelMap.Valid() && fresh(binaryLabelMap.scalars)
      ensures binaryLabelMap.extent == PadExtent(old(binaryLabelMap.extent))
      ensures binaryLabelMap.Snapshot() == PadVolume(old(binaryLabelMap.Snapshot()))
    {
      var padded := PadVolume(binaryLabelMap.Snapshot());
      binaryLabelMap.DeepCopyImageData(padded);
    }

    /**
     * The labelmap to extract from: a padded deep copy when the border scan
     * finds foreground, the caller's labelmap itself otherwise (which is never
     * changed).
     */
    method PadCopyIfNecessary(binaryLabelMap: OrientedImage) returns (labelmap: OrientedImage, paddingNecessary: bool)
      requires binaryLabelMap.Valid()
      ensures labelmap.Valid()
      ensures paddingNecessary == PaddingNecessary(binaryLabelMap.Snapshot())
      ensures paddingNecessary ==> fresh(labelmap) && fresh(labelmap.scalars)
      ensures !paddingNecessary ==> labelmap == binaryLabelMap
      ensures labelmap.Snapshot() == ExtractionInput(binaryLabelMap.Snapshot())
    {
      labelmap := binaryLabelMap;
      paddingNecessary := IsLabelmapPaddingNecessary(binaryLabelMap);
      if paddingNecessary {
        var paddedLabelmap := new OrientedImage();
        paddedLabelmap.DeepCopy(binaryLabelMap);
        PadLabelmap(paddedLabelmap);
        labelmap := paddedLabelmap;
      }
    }

    /**
     * Converts the labelmap in source into a closed surface in target.
     * paddedLabelmap is the private padded copy, if one was made, and
     * paddedLabelmapReleased tells whether it was released before returning.
     */
    method Convert(source: DataObject, target: DataObject, deserialize: string -> real,
                   extract: SurfaceExtractor, decimate: MeshDecimator)
      returns (success: bool, ghost paddedLabelmap: OrientedImage?, ghost paddedLabelmapReleased: bool)
      requires source.OrientedImageData? ==> source.image.Valid()
      modifies this, TargetFrame(target)
      // wrong kinds of objects: failure, and nothing is touched
      ensures !(source.OrientedImageData? && target.PolyDataObject?) ==>
        !success && paddedLabelmap == null && conversionParameters == old(conversionParameters)
      // right kinds: the outcome of the conversion of the labelmap as it was
      ensures source.OrientedImageData? && target.PolyDataObject? ==>
        && conversionParameters == WithLookedUp(old(conversionParameters), DecimationFactorParameterName)
        && var factor := deserialize(ParameterValue(old(conversionParameters), DecimationFactorParameterName));
           var outcome := ConvertedSurface(old(source.image.Snapshot()), factor, extract, decimate);
           success == outcome.Converted? && (success ==> target.polyData.Contents() == outcome.surface)
      ensures !success && target.PolyDataObject? ==> target.polyData.Contents() == old(target.polyData.Contents())
      // the caller's labelmap is never changed
      ensures source.OrientedImageData? ==> source.image.Snapshot() == old(source.image.Snapshot())
      // the padded copy: made exactly when the scan asks for it, released only on success
      ensures paddedLabelmap != null ==> fresh(paddedLabelmap)
      ensures paddedLabelmap != null <==>
        source.OrientedImageData? && target.PolyDataObject? && PaddingNecessary(old(source.image.Snapshot()))
      ensures paddedLabelmapReleased <==> success && paddedLabelmap != null
    {
      paddedLabelmap, paddedLabelmapReleased := null, false;
      if !source.OrientedImageData? {
        return false, paddedLabelmap, paddedLabelmapReleased;
      }
      var binaryLabelMap := source.image;
      if !target.PolyDataObject? {
        return false, paddedLabelmap, paddedLabelmapReleased;
      }
      var closedSurfacePolyData := target.polyData;
      ghost var labelmap := binaryLabelMap.Snapshot();

      var paddingNecessary;
      binaryLabelMap, paddingNecessary := PadCopyIfNecessary(binaryLabelMap);
      if paddingNecessary {
        paddedLabelmap := binaryLabelMap;
      }
      // from here on the labelmap is only read
      var labelmapImage := binaryLabelMap.Snapshot();
      assert labelmapImage == ExtractionInput(labelmap);

      // std::map look-up: a missing key is inserted with an empty value
      if DecimationFactorParameterName !in conversionParameters {
        conversionParameters := conversionParameters[DecimationFactorParameterName := ("", "")];
      }
      var decimationFactor := deserialize(conversionParameters[DecimationFactorParameterName].0);

      var labelmapImageToWorldMatrix := labelmapImage.imageToWorld;
      var binaryLabelmapWithIdentityGeometry := WithIdentityGeometry(labelmapImage);

      var marchingCubes := extract(binaryLabelmapWithIdentityGeometry, MarchingCubesSettings);
      if marchingCubes.Failure? {
        return false, paddedLabelmap, paddedLabelmapReleased;
      }
      if NumberOfPolys(marchingCubes.value) == 0 {
        return false, paddedLabelmap, paddedLabelmapReleased;
      }

      var mesh := marchingCubes.value;
      if decimationFactor > 0.0 {
        var decimator := decimate(mesh, DecimationSettingsFor(decimationFactor));
        if decimator.Failure? {
          return false, paddedLabelmap, paddedLabelmapReleased;
        }
        mesh := decimator.value;
      }

      var transformed := TransformMesh(labelmapImageToWorldMatrix, mesh);
      closedSurfacePolyData.ShallowCopy(transformed);

      if paddingNecessary {
        paddedLabelmapReleased := true;
      }
      success := true;
    }
  }
}
