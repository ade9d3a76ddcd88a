# bpy-render-pp core, modelled in Dafny

This project models the parts of the `bpyrenderer` package that hold their own logic rather than
passing calls through to Blender:

- **Lighting** (`src/bpyrenderer/lighting.py`):
  - `blackbody_to_rgb`, the piecewise-linear colour-temperature model.
  - The light creators `add_point_light`, `add_area_light` and `add_sun_light`. Each returns a
    `Light` descriptor value: the fields it would set on a Blender light object.
  - `setup_studio_lighting` and `setup_random_lighting`.
  - `generate_random_lighting_setup`. It picks one of five archetypes (studio, dramatic, natural,
    random points, environment map), builds the lights, and records them in a metadata value.
  - `setup_lighting_from_metadata`, which replays such a record.

  The central law is the round trip: the lights `generate_random_lighting_setup` builds are
  exactly the lights `setup_lighting_from_metadata` makes from the metadata it returns.
- **OBJ reading** (`read_trimesh_obj` in `src/bpyrenderer/importer/custom_loaders.py`).
  - Lines are split as Python's `str.split()` splits them.
  - Seven-token `v` lines give a vertex and a colour.
  - `f` lines with at least four tokens give a face with 0-based indices.
  - Everything else is skipped.
- **Camera layout** (`src/bpyrenderer/camera/layout.py`):
  - `build_transformation_mat` assembles a 4x4 pose in a numpy buffer.
  - `get_camera_positions_on_sphere` enumerates cameras layer by layer over given elevations and
    over evenly spaced or explicit azimuths.

Whatever the Python code obtains from outside is a parameter of the model:
- random numbers are draws constrained to their ranges;
- `math.sin`, `cos`, `atan2`, `sqrt` form a `Trig` value;
- `float()` and `int()` on a token are a `NumberParsers` value;
- `to_track_quat(...).to_euler()` and `Euler(...).to_matrix()` are fields of `CameraMath`.

A Python exception becomes the `Failure` case of a `Result`.

Modules:

| module | file | models |
|---|---|---|
| `Wrappers` | `wrappers.dfy` | `Option`, `Result` |
| `Geometry` | `geometry.dfy` | vectors, `math.pi`, degrees to radians, spherical coordinates |
| `LightDescriptors` | `light_descriptors.dfy` | `add_point_light`, `add_area_light`, `add_sun_light` |
| `ColorTemperature` | `color_temperature.dfy` | `blackbody_to_rgb`, the three temperature bands |
| `LightingMetadata` | `lighting_metadata.dfy` | the metadata record, `setup_lighting_from_metadata` |
| `ReplayLaws` | `replay_laws.dfy` | properties of the replay |
| `LightingGeneration` | `lighting_generation.dfy` | archetype choice, draws, role names, the per-archetype builders, `setup_studio_lighting`, `setup_random_lighting` |
| `LightingSetup` | `lighting_setup.dfy` | `generate_random_lighting_setup`, the metadata schema, the replay of generated metadata |
| `ObjReader` | `obj_reader.dfy` | `str.split()`, `read_trimesh_obj` |
| `CameraLayout` | `camera_layout.dfy` | `build_transformation_mat`, `get_camera_positions_on_sphere` |

### Where the model follows the code over its description

- `blackbody_to_rgb` tests `temperature <= 4000`. At exactly 4000 K the first branch applies, so the
  result is (1, 1, 1) rather than the (1, 1, 0.8) the second branch's formula would give. The model
  follows the code (`ColorTemperature.AnchorColors`).
- `build_transformation_mat` advertises a (3,) or (3, 1) translation. A (3, 1) array passes the
  `shape[0] == 3` test. But it cannot be written into the 1-D slice `mat[:3, 3]`: numpy raises
  ValueError because it does not broadcast. The model returns `TranslationNotBroadcastable` for it.
  A (3, 1) rotation, by contrast, is read as three Euler angles.

## Model

| member | source | states |
|---|---|---|
| LightDescriptors.AddPointLight | src/bpyrenderer/lighting.py:8-28 | a point light at the given location, with the given energy, colour and shadow soft size |
| LightDescriptors.AddAreaLight | src/bpyrenderer/lighting.py:30-63 | an area light with the given location, rotation, energy, colour and shape; `size_x` is the first size; `size_y` is set exactly when the shape is RECTANGLE or ELLIPSE, and is then the second size |
| LightDescriptors.AddSunLight | src/bpyrenderer/lighting.py:65-90 | a sun light with the given rotation, energy, colour and angle |
| ColorTemperature.BlackbodyToRgb | src/bpyrenderer/lighting.py:171-189 | red is 1; up to 4000 K green rises by 0.3 per 1300 K from 0.7 at 2700 K, and blue twice as fast from 0.4; above 4000 K green is 1 and blue rises by 0.2 per 2500 K from 0.8 |
| ColorTemperature.RedIsAlwaysFull | src/bpyrenderer/lighting.py:181-189 | red is 1.0 at every temperature |
| ColorTemperature.AnchorColors | src/bpyrenderer/lighting.py:181-189 | (1, 0.7, 0.4) at 2700 K; (1, 1, 1) at 4000 K through the `<=` branch; (1, 1, 1) at 6500 K |
| ColorTemperature.BlueDropsAbove4000 | src/bpyrenderer/lighting.py:181-189 | just above 4000 K blue falls below its value at 4000 K and stays above 0.8 |
| ColorTemperature.BlueExceedsOneAbove6500 | src/bpyrenderer/lighting.py:185-189 | there is no clamping: blue exceeds 1 above 6500 K and reaches 1.08 at 7500 K |
| ColorTemperature.BandColors | src/bpyrenderer/lighting.py:181-189 | the colour ranges of the warm, neutral and cool bands |
| ColorTemperature.MonotoneWithinBranches | src/bpyrenderer/lighting.py:181-189 | green and blue do not decrease with temperature inside either branch |
| LightingMetadata.ArchetypeNamed | src/bpyrenderer/lighting.py:464-466 | a stored name denotes an archetype exactly when it is one of the five valid names, and that archetype's name is the stored name |
| LightingMetadata.NameRoundTrip | src/bpyrenderer/lighting.py:208-214 | every archetype's name is valid and reads back as that archetype |
| LightingMetadata.DecodeEntry | src/bpyrenderer/lighting.py:478-543 | one loop iteration raises only KeyError for a missing key or the size-form error; the light it makes is a point light exactly in the random loop, a sun exactly for a natural `sun` entry, and an area light is rectangular |
| LightingMetadata.Decode | src/bpyrenderer/lighting.py:459-543 | a replay succeeds only for one of the five type names, and for all but `env_map` only with a `lights` list; `env_map` gives no lights |
| LightingMetadata.SetupLightingFromMetadata | src/bpyrenderer/lighting.py:445-545 | the replay loop returns what the `Decode` specification gives: the top-level checks, then one creator call per recognised entry, in order |
| LightingMetadata.DecodeEntriesAppend | src/bpyrenderer/lighting.py:478-543 | replaying a concatenation is replaying its halves in order; the first faulty entry decides the exception |
| ReplayLaws.TopLevelRules | src/bpyrenderer/lighting.py:459-476 | a missing `lighting_type` raises; an invalid one raises with its value; `env_map` gives no lights; a missing `lights` list raises for the other types |
| ReplayLaws.EntryClassification | src/bpyrenderer/lighting.py:478-543 | an entry without its discriminant key (`role` for studio, `type` otherwise) raises KeyError for that key, and only then; an entry is passed over exactly when the discriminant is present and not one the archetype acts on |
| ReplayLaws.UnrecognisedEntrySkipped | src/bpyrenderer/lighting.py:478-543 | inserting an entry with an unrecognised discriminant anywhere changes nothing |
| ReplayLaws.MissingDiscriminantAborts | src/bpyrenderer/lighting.py:478-543 | after a well-formed prefix, an entry without its discriminant aborts the replay with KeyError, whatever follows |
| ReplayLaws.ReplayCount | src/bpyrenderer/lighting.py:478-543 | a successful replay creates one light per recognised entry |
| ReplayLaws.ReplayInOrder | src/bpyrenderer/lighting.py:478-543 | when every entry makes a light, the replay succeeds with one light per entry, the k-th light made from the k-th entry |
| ReplayLaws.UnknownStudioRoleExample | src/bpyrenderer/lighting.py:480-491 | a studio record with roles key, unknown, back replays to two lights |
| LightingGeneration.WeightedChoice | src/bpyrenderer/lighting.py:221-224 | `random.choices` with the archetype weights: the uniform draw lies in the chosen archetype's cumulative-weight interval |
| LightingGeneration.WeightsSumToOne | src/bpyrenderer/lighting.py:208-214 | the five weights sum to 1 |
| LightingGeneration.ChoiceInterval | src/bpyrenderer/lighting.py:221-224 | an archetype is chosen if and only if the draw lies in its interval |
| LightingGeneration.SelectLightingType | src/bpyrenderer/lighting.py:216-224 | a forced type succeeds exactly when it is valid, and is then used unchanged; an invalid one raises ValueError with its value; with no forced type the weighted choice is made |
| LightingGeneration.NatToString | src/bpyrenderer/lighting.py:335 | the role suffix is a non-empty string of decimal digits, without a leading zero, that denotes the number; below ten it is the single digit |
| LightingGeneration.RoleSuffixInjective | src/bpyrenderer/lighting.py:335 | two roles with the same prefix are equal only when their numbers are |
| LightingGeneration.SetupStudioLighting | src/bpyrenderer/lighting.py:121-169 | three rectangular area lights in the order key, fill, back: key at (4, -4, 4) turned (45°, 0, 45°) of size 2 x 1, fill at (-4, -4, 2) turned (30°, 0, -45°) of size 3 x 2, back at (0, 4, 3) turned (-45°, 0, 0) of size 2 x 0.5, with the given energies and colours |
| LightingGeneration.GenerateStudio | src/bpyrenderer/lighting.py:246-294 | the studio branch's lights are `setup_studio_lighting`'s, at the blackbody colours of the drawn temperatures; its three entries replay to exactly those lights |
| LightingGeneration.DramaticRotation | src/bpyrenderer/lighting.py:311-316 | no roll; the pitch is atan2 of the negated height over the horizontal distance from the axis; the yaw is the bearing of the position plus pi |
| LightingGeneration.GenerateDramatic | src/bpyrenderer/lighting.py:296-341 | one light and one entry `dramatic_<n>` per draw; the entries replay to exactly those lights |
| LightingGeneration.GenerateNatural | src/bpyrenderer/lighting.py:343-397 | a sun and then an area fill light; the two entries replay to exactly those lights |
| LightingGeneration.GenerateRandomPoints | src/bpyrenderer/lighting.py:399-441 | one point light and one entry `random_<n>` per draw; the entries replay to exactly those lights |
| LightingSetup.StudioRecordsConform | src/bpyrenderer/lighting.py:246-294 | the studio entries are key, fill and back in that order, area type, at the fixed positions, rotations and sizes, with energies and temperatures in their drawn ranges and no stored colour |
| LightingSetup.DramaticRecordsConform | src/bpyrenderer/lighting.py:296-341 | one or two area entries with energies, warm temperatures and sizes in range |
| LightingSetup.NaturalRecordsConform | src/bpyrenderer/lighting.py:343-397 | a sun entry then an area fill entry, each in its ranges |
| LightingSetup.PointRecordsConform | src/bpyrenderer/lighting.py:399-441 | two to five point entries in range, each storing the colour of its temperature |
| LightingSetup.NumberedRolesDistinct | src/bpyrenderer/lighting.py:296-441 | the `dramatic_<n>` roles of one call are pairwise different, and so are the `random_<n>` roles |
| LightingSetup.EntryReplays | src/bpyrenderer/lighting.py:478-543 | the light replayed from an entry has the entry's kind, energy, position and colour (stored, or else the blackbody colour of its temperature); an area light is rectangular, its size is the stored pair and its rotation the stored one, except the natural fill, which keeps the default rotation; a sun has the stored rotation and angle; a point light's shadow soft size is the stored size |
| LightingSetup.ConformingReplays | src/bpyrenderer/lighting.py:445-545 | every record of the generated schema replays without error, to one light per entry, in order, each carrying its entry's kind, energy, position, colour, rotation, size and angle as `EntryReplays` states |
| LightingSetup.GenerateRandomLightingSetup | src/bpyrenderer/lighting.py:197-443 | it fails exactly for an invalid forced type, with ValueError; it records the forced type; its metadata is the chosen branch's entries built from the draws (and the drawn strength for `env_map`), and follows the schema; it creates one light per entry; replaying the metadata gives back exactly the lights created |
| LightingGeneration.RandomPointsInShell | src/bpyrenderer/lighting.py:409-419 | with sin² + cos² = 1, each random point light lies between radius 2 and 4 of the origin |
| LightingGeneration.SetupRandomLighting | src/bpyrenderer/lighting.py:92-119 | one white point light of size 0.1 per draw, at the drawn spherical position, with energy between the bounds |
| LightingGeneration.SetupRandomLightingDistances | src/bpyrenderer/lighting.py:106-117 | with sin² + cos² = 1, each light lies between the minimum and maximum radius |
| Geometry.SphericalNorm | src/bpyrenderer/lighting.py:112-114 | with sin² + cos² = 1, a point in spherical coordinates lies at distance r from the origin |
| Geometry.SphericalDistance | src/bpyrenderer/camera/layout.py:85-88 | the same around a centre |
| ObjReader.Split | src/bpyrenderer/importer/custom_loaders.py:27 | the tokens of `line.split()` are non-empty and contain no whitespace |
| ObjReader.SplitJoin | src/bpyrenderer/importer/custom_loaders.py:27 | splitting tokens joined by single spaces, followed by any whitespace such as the newline, gives back the tokens |
| ObjReader.SplitSkipsSpace | src/bpyrenderer/importer/custom_loaders.py:27 | leading whitespace does not change the tokens |
| ObjReader.BlankLineHasNoTokens | src/bpyrenderer/importer/custom_loaders.py:27-29 | a whitespace-only line has no tokens, so it is skipped |
| ObjReader.ParseLine | src/bpyrenderer/importer/custom_loaders.py:27-39 | no tokens: blank; a vertex results only from a seven-token `v` line, a face only from an `f` line of four or more tokens, with one index per token after the first; only those two kinds of line can raise; every other line is ignored |
| ObjReader.FaceIndices | src/bpyrenderer/importer/custom_loaders.py:38 | every index is the token's integer minus one; it succeeds exactly when every token is an integer; otherwise it reports the first token that is not |
| ObjReader.ReadTrimeshObj | src/bpyrenderer/importer/custom_loaders.py:24-41 | the loop over the lines returns what the `ParseObj` specification gives, including the first conversion error |
| ObjReader.ParseObjAppend | src/bpyrenderer/importer/custom_loaders.py:26-39 | reading a concatenation of files is reading each in turn and concatenating the lists |
| ObjReader.ParseObjStopsAt | src/bpyrenderer/importer/custom_loaders.py:32-38 | a line whose conversion fails ends the reading with that error, whatever follows |
| ObjReader.LineRules | src/bpyrenderer/importer/custom_loaders.py:28-39 | no tokens: skipped; a seven-token `v` line succeeds exactly when its six numbers parse, giving the vertex and the colour; an `f` line of four or more tokens gives a face of at least three indices, each one less than its token; any other line is ignored |
| ObjReader.MeshShape | src/bpyrenderer/importer/custom_loaders.py:24-41 | after a successful read there are as many vertices and as many colours as `v` lines, as many faces as `f` lines, and every face has at least three corners |
| ObjReader.ParseObjFolds | src/bpyrenderer/importer/custom_loaders.py:26-39 | when no line fails, the mesh is every line's contribution added in order |
| ObjReader.DocstringExample | src/bpyrenderer/importer/custom_loaders.py:9-15 | the docstring's file gives three vertices, three colours (0.52941, 0.80784, 0.92157) and the face (0, 1, 2) |
| ObjReader.JoinedLinesSplit | src/bpyrenderer/importer/custom_loaders.py:11-14 | lines written as space-separated tokens and a newline split back into those tokens |
| CameraLayout.EulerAngles | src/bpyrenderer/camera/layout.py:27-28 | the Euler angles are the three items of a vector; a (3, k) array gives them only when k is 1, and they are then the single entries of its three rows |
| CameraLayout.BuildTransformationMat | src/bpyrenderer/camera/layout.py:8-35 | ragged input, a translation of leading length other than 3, a 2-D translation, and a rotation that is neither 3x3 nor of leading length 3 each raise, and translation errors win; otherwise the result is the identity with the translation in column 3 and the rotation (3x3 as given, or from Euler angles) in the upper-left block |
| CameraLayout.TransformMovesPoints | src/bpyrenderer/camera/layout.py:18-28 | the built matrix sends the homogeneous point (p, 1) to (R p + t, 1) |
| CameraLayout.BottomRowFixed | src/bpyrenderer/camera/layout.py:18-28 | the bottom row is (0, 0, 0, 1); the upper-left block is the rotation; column 3 is the translation |
| CameraLayout.Linspace | src/bpyrenderer/camera/layout.py:71 | `np.linspace` gives `num` samples |
| CameraLayout.FloorMod | src/bpyrenderer/camera/layout.py:72 | Python's float `% m` for positive m lies in [0, m) |
| CameraLayout.FloorModOfRemainder | src/bpyrenderer/camera/layout.py:72 | `% 360` leaves a value in [0, 360) unchanged |
| CameraLayout.EvenSample | src/bpyrenderer/camera/layout.py:71-72 | sample j < n of `linspace(0, 360, n + 1)` is 360 j / n, already in [0, 360) |
| CameraLayout.AzimuthDegrees | src/bpyrenderer/camera/layout.py:70-76 | with a camera count n and no explicit azimuths: max(n, 0) degrees 360 j / n plus the offset, with no wrap after the offset; a count below -1 raises; otherwise the explicit list is used as given, and raises when it is absent too |
| CameraLayout.OffsetNotRewrapped | src/bpyrenderer/camera/layout.py:70-74 | four cameras with offset -90 give -90, 0, 90, 180 |
| CameraLayout.GridCell | src/bpyrenderer/camera/layout.py:79-80 | position k of the elevation-major enumeration is layer k / m, column k % m |
| CameraLayout.PlaceCamera | src/bpyrenderer/camera/layout.py:81-95 | the camera lies at the centre plus the spherical point of the polar angle and azimuth; its pose is the transformation built from that position and the tracking rotation |
| CameraLayout.GetCameraPositionsOnSphere | src/bpyrenderer/camera/layout.py:38-97 | an azimuth error is passed on; otherwise all four lists have length elevations times azimuths, and entry k holds the camera of elevation k / m and azimuth k % m: its radians, its position and its pose |
| CameraLayout.CamerasOnSphere | src/bpyrenderer/camera/layout.py:85-88 | with sin² + cos² = 1, every camera lies at distance `radius` from `center` |
| CameraLayout.PosesPlaceCameras | src/bpyrenderer/camera/layout.py:93-95 | each camera's pose carries the origin to the camera's position |
| CameraLayout.ElevationMajorOrder | src/bpyrenderer/camera/layout.py:79-88 | entry k has elevation `deg2rad(elevations[k / m])`, azimuth `deg2rad(azimuths[k % m])`, and polar angle pi/2 minus the elevation |

## Left out

- Blender itself is not modelled:
  - creating and linking light objects and `clear_lights` (`src/bpyrenderer/lighting.py:191-195`);
  - the world, material and compositor node graphs;
  - camera keyframing;
  - engine settings.

  The creators return the descriptor of the object they would build.
- `setup_lighting_from_metadata` links each light into the scene as it goes. When a later entry
  raises, the lights already linked stay in the scene. The model returns only the exception.
- JSON is not modelled. Metadata is a typed record; a missing key is `None`. A key present with a
  null value is not told apart from a missing one. A vector of the wrong length cannot be
  represented.
- A point-light entry whose `size` is a pair is reported as `WrongSizeForm`. This assumes Blender
  refuses a pair for `shadow_soft_size`.
- Randomness:
  - `random.uniform`, `random.randint` and `random.choices` are parameters constrained to the
    ranges the code passes. Their distribution is not modelled.
  - `random.choices` is modelled in exact arithmetic on a uniform draw in [0, 1). Its floating-point
    cumulative sums are not.
- Floating point: every float is a real, and rounding is not modelled. `math.pi` is the real
  3.141592653589793.
- `sin`, `cos`, `atan2`, `sqrt`, `to_track_quat(...).to_euler()` and `Euler(...).to_matrix()` are
  uninterpreted — parameters. The only fact assumed about them is sin² + cos² = 1, and only where
  it is needed.
- `float()` and `int()` on a token are parameters. Opening and reading the file is not modelled:
  `read_trimesh_obj` receives the file's lines.
- The default arguments of `setup_studio_lighting` and `setup_random_lighting` are not modelled:
  the callers pass every argument.
- Array shapes other than 1-D and 2-D (scalars, 3-D arrays) are not representable in
  `CameraLayout.NdArray`.
- `get_camera_positions_on_sphere` receives `center` as a tuple. `Vector((x, y, z))` and, from the
  loop's first pass on, `center = Vector(center)` turn coordinates into mathutils vectors, which
  store single-precision floats. So every camera position is rounded to single precision, and so is
  the centre that the later cameras are computed from. The real-number model (see "Floating
  point") does not capture this rounding: it treats both conversions as the identity.
