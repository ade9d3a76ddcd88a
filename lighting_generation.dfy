/**
 * `generate_random_lighting_setup` and its helpers. Every random draw is a
 * parameter: `u` is the uniform number behind `random.choices`, and a `Draws`
 * value holds the `random.uniform` / `random.randint` results the chosen
 * archetype's branch consumes, in the order the source draws them.
 */
module LightingGeneration {
  import opened Wrappers
  import opened Geometry
  import opened LightDescriptors
  import opened ColorTemperature
  import opened LightingMetadata
  import opened ReplayLaws

  // ---------------------------------------------------------------- selection

  /** The weight table of the source. */
  function Weight(a: Archetype): real {
    match a
    case Studio => 0.25
    case Dramatic => 0.2
    case Natural => 0.25
    case RandomPoints => 0.15
    case EnvMap => 0.15
  }

  /** The weight of the archetypes listed before `a` (dictionary order). */
  function CumulativeBefore(a: Archetype): real {
    match a
    case Studio => 0.0
    case Dramatic => Weight(Studio)
    case Natural => Weight(Studio) + Weight(Dramatic)
    case RandomPoints => Weight(Studio) + Weight(Dramatic) + Weight(Natural)
    case EnvMap => Weight(Studio) + Weight(Dramatic) + Weight(Natural) + Weight(RandomPoints)
  }

  /**
   * `random.choices(names, weights)[0]`: the first archetype whose cumulative weight
   * exceeds `u` times the total weight (which is 1).
   */
  function WeightedChoice(u: real): (a: Archetype)
    requires 0.0 <= u < 1.0
    ensures CumulativeBefore(a) <= u < CumulativeBefore(a) + Weight(a)
  {
    if u < CumulativeBefore(Dramatic) then Studio
    else if u < CumulativeBefore(Natural) then Dramatic
    else if u < CumulativeBefore(RandomPoints) then Natural
    else if u < CumulativeBefore(EnvMap) then RandomPoints
    else EnvMap
  }

  /** The weights sum to one, so their intervals cover exactly [0, 1). */
  lemma WeightsSumToOne()
    ensures CumulativeBefore(EnvMap) + Weight(EnvMap) == 1.0
  {
  }

  /** Each archetype is chosen exactly on its own interval, whose length is its weight. */
  lemma ChoiceInterval(u: real, a: Archetype)
    requires 0.0 <= u < 1.0
    ensures WeightedChoice(u) == a <==> CumulativeBefore(a) <= u < CumulativeBefore(a) + Weight(a)
  {
  }

  /**
   * Archetype selection: a forced name must be one of the five and is then used
   * unchanged; otherwise the weighted draw decides.
   */
  function SelectLightingType(forced: Option<string>, u: real): (r: Result<Archetype, Error>)
    requires forced.None? ==> 0.0 <= u < 1.0
    ensures forced.Some? ==> (r.Success? <==> forced.value in LightingTypeNames)
    ensures forced.Some? && r.Success? ==> Name(r.value) == forced.value
    ensures forced.Some? && r.Failure? ==> r.error == InvalidLightingType(forced.value)
    ensures forced.None? ==> r.Success? && CumulativeBefore(r.value) <= u < CumulativeBefore(r.value) + Weight(r.value)
  {
    match forced
    case Some(name) =>
      if name in LightingTypeNames then Success(ArchetypeNamed(name).value)
      else Failure(InvalidLightingType(name))
    case None => Success(WeightedChoice(u))
  }

  // ---------------------------------------------------------------- draws

  datatype StudioDraw = StudioDraw(
    keyEnergy: real, fillEnergy: real, backEnergy: real,
    keyTemperature: real, fillTemperature: real, backTemperature: real)

  datatype DramaticDraw = DramaticDraw(
    theta: real, phi: real, radius: real,
    energy: real, temperature: real, width: real, height: real)

  datatype NaturalDraw = NaturalDraw(
    sunElevationDegrees: real, sunAzimuthDegrees: real, sunEnergy: real,
    sunAngleDegrees: real, sunTemperature: real,
    fillX: real, fillY: real, fillZ: real,
    fillEnergy: real, fillTemperature: real, fillWidth: real, fillHeight: real)

  datatype PointDraw = PointDraw(theta: real, phi: real, radius: real, energy: real, temperature: real)

  /** The draws one call consumes, by archetype. */
  datatype Draws =
    | StudioDraws(studio: StudioDraw)
    | DramaticDraws(dramatic: seq<DramaticDraw>)
    | NaturalDraws(natural: NaturalDraw)
    | RandomDraws(points: seq<PointDraw>)
    | EnvMapDraws(strength: real)

  function DrawsArchetype(d: Draws): Archetype {
    match d
    case StudioDraws(_) => Studio
    case DramaticDraws(_) => Dramatic
    case NaturalDraws(_) => Natural
    case RandomDraws(_) => RandomPoints
    case EnvMapDraws(_) => EnvMap
  }

  predicate Within(x: real, low: real, high: real) {
    low <= x <= high
  }

  const TwoPi: real := 2.0 * Pi

  predicate StudioDrawInRange(d: StudioDraw) {
    && Within(d.keyEnergy, 800.0, 1500.0)
    && Within(d.fillEnergy, 200.0, 600.0)
    && Within(d.backEnergy, 400.0, 800.0)
    && InBand(d.keyTemperature, Neutral)
    && InBand(d.fillTemperature, Cool)
    && InBand(d.backTemperature, Warm)
  }

  predicate DramaticDrawInRange(d: DramaticDraw) {
    && Within(d.theta, 0.0, TwoPi)
    && Within(d.phi, 0.0, Pi / 2.0)
    && Within(d.radius, 2.0, 4.0)
    && Within(d.energy, 1000.0, 2000.0)
    && InBand(d.temperature, Warm)
    && Within(d.width, 0.5, 2.0)
    && Within(d.height, 0.5, 2.0)
  }

  predicate NaturalDrawInRange(d: NaturalDraw) {
    && Within(d.sunElevationDegrees, -60.0, -30.0)
    && Within(d.sunAzimuthDegrees, 0.0, 360.0)
    && Within(d.sunEnergy, 2.0, 5.0)
    && Within(d.sunAngleDegrees, 0.5, 5.0)
    && InBand(d.sunTemperature, Neutral)
    && Within(d.fillX, -3.0, 3.0)
    && Within(d.fillY, -3.0, 3.0)
    && Within(d.fillZ, 1.0, 3.0)
    && Within(d.fillEnergy, 200.0, 400.0)
    && InBand(d.fillTemperature, Cool)
    && Within(d.fillWidth, 1.0, 3.0)
    && Within(d.fillHeight, 1.0, 3.0)
  }

  predicate PointDrawInRange(d: PointDraw) {
    && Within(d.theta, 0.0, TwoPi)
    && Within(d.phi, 0.0, Pi)
    && Within(d.radius, 2.0, 4.0)
    && Within(d.energy, 300.0, 800.0)
    && InBand(d.temperature, Neutral)
  }

  /** The ranges of `random.uniform` and `random.randint` in each branch. */
  predicate DrawsInRange(d: Draws) {
    match d
    case StudioDraws(s) => StudioDrawInRange(s)
    case DramaticDraws(ds) => 1 <= |ds| <= 2 && forall k :: 0 <= k < |ds| ==> DramaticDrawInRange(ds[k])
    case NaturalDraws(n) => NaturalDrawInRange(n)
    case RandomDraws(ps) => 2 <= |ps| <= 5 && forall k :: 0 <= k < |ps| ==> PointDrawInRange(ps[k])
    case EnvMapDraws(s) => Within(s, 0.8, 1.5)
  }

  /** The draws are those the selected branch consumes (nothing is drawn on an error). */
  predicate DrawsFit(forced: Option<string>, u: real, d: Draws)
    requires forced.None? ==> 0.0 <= u < 1.0
  {
    match SelectLightingType(forced, u)
    case Failure(_) => true
    case Success(a) => DrawsArchetype(d) == a && DrawsInRange(d)
  }

  // ---------------------------------------------------------------- roles

  function Digit(n: nat): char
    requires n < 10
  {
    ('0' as int + n) as char
  }

  predicate IsDecimal(s: string) {
    forall i :: 0 <= i < |s| ==> '0' <= s[i] <= '9'
  }

  /** The number a string of decimal digits denotes, most significant digit first. */
  function DecimalValue(s: string): nat
    requires IsDecimal(s)
    decreases |s|
  {
    if s == [] then 0
    else DecimalValue(s[..|s| - 1]) * 10 + (s[|s| - 1] as int - '0' as int)
  }

  /**
   * `str(n)` for a natural number: decimal digits without a leading zero that denote `n`,
   * a single digit below ten.
   */
  function NatToString(n: nat): (s: string)
    ensures |s| >= 1 && IsDecimal(s)
    ensures DecimalValue(s) == n
    ensures s[0] == '0' ==> n == 0
    ensures n < 10 ==> s == [Digit(n)]
    decreases n
  {
    if n < 10 then [Digit(n)]
    else
      var s := NatToString(n / 10) + [Digit(n % 10)];
      assert s[..|s| - 1] == NatToString(n / 10);
      s
  }

  /** Distinct numbers give distinct role suffixes, so the generated roles are all different. */
  lemma RoleSuffixInjective(m: nat, n: nat, prefix: string)
    requires prefix + NatToString(m) == prefix + NatToString(n)
    ensures m == n
  {
    assert (prefix + NatToString(m))[|prefix|..] == NatToString(m);
    assert (prefix + NatToString(n))[|prefix|..] == NatToString(n);
  }

  // ---------------------------------------------------------------- studio

  const KeyPosition := Vec3(4.0, -4.0, 4.0)
  const KeyRotation := Vec3(Radians(45.0), Radians(0.0), Radians(45.0))
  const KeySize: (real, real) := (2.0, 1.0)
  const FillPosition := Vec3(-4.0, -4.0, 2.0)
  const FillRotation := Vec3(Radians(30.0), Radians(0.0), Radians(-45.0))
  const FillSize: (real, real) := (3.0, 2.0)
  const BackPosition := Vec3(0.0, 4.0, 3.0)
  const BackRotation := Vec3(Radians(-45.0), Radians(0.0), Radians(0.0))
  const BackSize: (real, real) := (2.0, 0.5)

  /** `setup_studio_lighting`: key, fill and back area lights at their fixed places. */
  function SetupStudioLighting(keyEnergy: real, fillEnergy: real, backEnergy: real,
                               keyColor: Rgb, fillColor: Rgb, backColor: Rgb): (ls: seq<Light>)
    ensures |ls| == 3
    ensures forall k :: 0 <= k < 3 ==> ls[k].AreaLight? && ls[k].shape == Rectangle
    ensures ls[0].location == KeyPosition && ls[0].rotation == KeyRotation
    ensures ls[0].sizeX == KeySize.0 && ls[0].sizeY == Some(KeySize.1)
    ensures ls[1].location == FillPosition && ls[1].rotation == FillRotation
    ensures ls[1].sizeX == FillSize.0 && ls[1].sizeY == Some(FillSize.1)
    ensures ls[2].location == BackPosition && ls[2].rotation == BackRotation
    ensures ls[2].sizeX == BackSize.0 && ls[2].sizeY == Some(BackSize.1)
    ensures ls[0].energy == keyEnergy && ls[1].energy == fillEnergy && ls[2].energy == backEnergy
    ensures ls[0].color == keyColor && ls[1].color == fillColor && ls[2].color == backColor
  {
    [ AddAreaLight(KeyPosition, KeyRotation, keyEnergy, keyColor, KeySize, DefaultAreaShape),
      AddAreaLight(FillPosition, FillRotation, fillEnergy, fillColor, FillSize, DefaultAreaShape),
      AddAreaLight(BackPosition, BackRotation, backEnergy, backColor, BackSize, DefaultAreaShape) ]
  }

  function AreaRecord(role: string, energy: real, temperature: real, position: Vec3,
                      rotation: Option<Vec3>, size: (real, real)): LightRecord {
    LightRecord(Some("area"), Some(role), Some(energy), Some(temperature), None,
                Some(position), rotation, Some(PairSize(size.0, size.1)), None)
  }

  /** The three entries the studio branch stores; rotations keep the literal `0`. */
  function StudioRecords(d: StudioDraw): seq<LightRecord> {
    [ AreaRecord("key", d.keyEnergy, d.keyTemperature, KeyPosition,
                 Some(Vec3(Radians(45.0), 0.0, Radians(45.0))), KeySize),
      AreaRecord("fill", d.fillEnergy, d.fillTemperature, FillPosition,
                 Some(Vec3(Radians(30.0), 0.0, Radians(-45.0))), FillSize),
      AreaRecord("back", d.backEnergy, d.backTemperature, BackPosition,
                 Some(Vec3(Radians(-45.0), 0.0, 0.0)), BackSize) ]
  }

  /** The studio branch: lights from `setup_studio_lighting`, and their metadata. */
  method GenerateStudio(d: StudioDraw) returns (lights: seq<Light>, records: seq<LightRecord>)
    ensures lights == SetupStudioLighting(d.keyEnergy, d.fillEnergy, d.backEnergy,
      BlackbodyToRgb(d.keyTemperature), BlackbodyToRgb(d.fillTemperature), BlackbodyToRgb(d.backTemperature))
    ensures records == StudioRecords(d)
    ensures DecodeEntries(Studio, records) == Success(lights)
  {
    lights := SetupStudioLighting(d.keyEnergy, d.fillEnergy, d.backEnergy,
      BlackbodyToRgb(d.keyTemperature), BlackbodyToRgb(d.fillTemperature), BlackbodyToRgb(d.backTemperature));
    records := StudioRecords(d);
    ReplayInOrder(Studio, records);
    assert DecodeEntries(Studio, records).value == lights;
  }

  // ---------------------------------------------------------------- dramatic

  /**
   * A dramatic light is turned towards the origin: no roll, a pitch from the negated
   * height over the horizontal distance, and the bearing of its position turned by pi.
   */
  function DramaticRotation(trig: Trig, pos: Vec3): (rot: Vec3)
    ensures rot.y == 0.0
    ensures rot.x == trig.atan2(-pos.z, trig.sqrt(NormSquared(Vec3(pos.x, pos.y, 0.0))))
    ensures rot.z - Pi == trig.atan2(pos.y, pos.x)
  {
    assert NormSquared(Vec3(pos.x, pos.y, 0.0)) == pos.x * pos.x + pos.y * pos.y;
    Vec3(trig.atan2(-pos.z, trig.sqrt(pos.x * pos.x + pos.y * pos.y)), 0.0, trig.atan2(pos.y, pos.x) + Pi)
  }

  function DramaticPosition(trig: Trig, d: DramaticDraw): Vec3 {
    Spherical(trig, d.radius, d.phi, d.theta)
  }

  /** The entry the dramatic loop stores in iteration `n - 1`. */
  function DramaticRecord(trig: Trig, d: DramaticDraw, n: nat): LightRecord {
    var pos := DramaticPosition(trig, d);
    AreaRecord("dramatic_" + NatToString(n), d.energy, d.temperature, pos,
               Some(DramaticRotation(trig, pos)), (d.width, d.height))
  }

  function DramaticRecords(trig: Trig, ds: seq<DramaticDraw>): (es: seq<LightRecord>) {
    seq(|ds|, k requires 0 <= k < |ds| => DramaticRecord(trig, ds[k], k + 1))
  }

  /** A stored dramatic entry replays to the rectangular light the loop created for it. */
  lemma DramaticRecordReplays(trig: Trig, d: DramaticDraw, n: nat)
    ensures var pos := DramaticPosition(trig, d);
      DecodeEntry(Dramatic, DramaticRecord(trig, d, n)) ==
        Success(Some(AddAreaLight(pos, DramaticRotation(trig, pos), d.energy, BlackbodyToRgb(d.temperature),
                                  (d.width, d.height), Rectangle)))
  {
  }

  /** The dramatic branch's loop: one rectangular area light per draw. */
  method GenerateDramatic(trig: Trig, ds: seq<DramaticDraw>) returns (lights: seq<Light>, records: seq<LightRecord>)
    ensures records == DramaticRecords(trig, ds)
    ensures |lights| == |ds|
    ensures DecodeEntries(Dramatic, records) == Success(lights)
  {
    lights, records := [], [];
    var i := 0;
    while i < |ds|
      invariant 0 <= i <= |ds|
      invariant records == DramaticRecords(trig, ds[..i])
      invariant |lights| == i
      invariant DecodeEntries(Dramatic, records) == Success(lights)
    {
      var d := ds[i];
      var pos := DramaticPosition(trig, d);
      var rot := DramaticRotation(trig, pos);
      var light := AddAreaLight(pos, rot, d.energy, BlackbodyToRgb(d.temperature), (d.width, d.height), Rectangle);
      var record := DramaticRecord(trig, d, i + 1);
      assert (records + [record])[..|records|] == records;
      DramaticRecordReplays(trig, d, i + 1);
      lights := lights + [light];
      records := records + [record];
      i := i + 1;
      assert records == DramaticRecords(trig, ds[..i]);
    }
    assert ds[..i] == ds;
  }

  // ---------------------------------------------------------------- natural

  function SunRotation(d: NaturalDraw): Vec3 {
    Vec3(Radians(d.sunElevationDegrees), Radians(d.sunAzimuthDegrees), 0.0)
  }

  function FillLocation(d: NaturalDraw): Vec3 {
    Vec3(d.fillX, d.fillY, d.fillZ)
  }

  /** The natural branch's entries: the sun, then the fill (which stores no rotation). */
  function NaturalRecords(d: NaturalDraw): seq<LightRecord> {
    [ LightRecord(Some("sun"), Some("main"), Some(d.sunEnergy), Some(d.sunTemperature), None,
                  None, Some(SunRotation(d)), None, Some(Radians(d.sunAngleDegrees))),
      AreaRecord("fill", d.fillEnergy, d.fillTemperature, FillLocation(d), None, (d.fillWidth, d.fillHeight)) ]
  }

  /** The natural branch: a sun and an area fill light left at the default rotation. */
  method GenerateNatural(d: NaturalDraw) returns (lights: seq<Light>, records: seq<LightRecord>)
    ensures records == NaturalRecords(d)
    ensures |lights| == 2 && lights[0].SunLight? && lights[1].AreaLight?
    ensures DecodeEntries(Natural, records) == Success(lights)
  {
    var sun := AddSunLight(SunRotation(d), d.sunEnergy, BlackbodyToRgb(d.sunTemperature), Radians(d.sunAngleDegrees));
    lights := [sun];
    var fill := AddAreaLight(FillLocation(d), DefaultAreaRotation, d.fillEnergy, BlackbodyToRgb(d.fillTemperature),
                             (d.fillWidth, d.fillHeight), DefaultAreaShape);
    lights := lights + [fill];
    records := NaturalRecords(d);
    ReplayInOrder(Natural, records);
    assert DecodeEntries(Natural, records).value == lights;
  }

  // ---------------------------------------------------------------- random points

  function PointPosition(trig: Trig, d: PointDraw): Vec3 {
    Spherical(trig, d.radius, d.phi, d.theta)
  }

  /** The entry the random loop stores in iteration `n - 1`: it keeps the realised colour too. */
  function PointRecord(trig: Trig, d: PointDraw, n: nat): LightRecord {
    LightRecord(Some("point"), Some("random_" + NatToString(n)), Some(d.energy), Some(d.temperature),
                Some(BlackbodyToRgb(d.temperature)), Some(PointPosition(trig, d)), None,
                Some(ScalarSize(0.1)), None)
  }

  function PointRecords(trig: Trig, ds: seq<PointDraw>): seq<LightRecord> {
    seq(|ds|, k requires 0 <= k < |ds| => PointRecord(trig, ds[k], k + 1))
  }

  /** A stored point entry replays, through its stored colour, to the light the loop created for it. */
  lemma PointRecordReplays(trig: Trig, d: PointDraw, n: nat)
    ensures DecodeEntry(RandomPoints, PointRecord(trig, d, n)) ==
      Success(Some(AddPointLight(PointPosition(trig, d), d.energy, BlackbodyToRgb(d.temperature), 0.1)))
  {
  }

  /** The random branch's loop: one point light of size 0.1 per draw. */
  method GenerateRandomPoints(trig: Trig, ds: seq<PointDraw>) returns (lights: seq<Light>, records: seq<LightRecord>)
    ensures records == PointRecords(trig, ds)
    ensures |lights| == |ds|
    ensures DecodeEntries(RandomPoints, records) == Success(lights)
  {
    lights, records := [], [];
    var i := 0;
    while i < |ds|
      invariant 0 <= i <= |ds|
      invariant records == PointRecords(trig, ds[..i])
      invariant |lights| == i
      invariant DecodeEntries(RandomPoints, records) == Success(lights)
    {
      var d := ds[i];
      var pos := PointPosition(trig, d);
      var color := BlackbodyToRgb(d.temperature);
      var light := AddPointLight(pos, d.energy, color, 0.1);
      var record := PointRecord(trig, d, i + 1);
      assert (records + [record])[..|records|] == records;
      PointRecordReplays(trig, d, i + 1);
      lights := lights + [light];
      records := records + [record];
      i := i + 1;
      assert records == PointRecords(trig, ds[..i]);
    }
    assert ds[..i] == ds;
  }

  // ---------------------------------------------------------------- random point geometry

  /** Random point lights lie in the shell between radius 2 and 4 around the origin. */
  lemma RandomPointsInShell(trig: Trig, ds: seq<PointDraw>)
    requires Pythagorean(trig)
    requires forall k :: 0 <= k < |ds| ==> PointDrawInRange(ds[k])
    ensures forall k :: 0 <= k < |ds| ==>
      4.0 <= NormSquared(PointRecords(trig, ds)[k].position.value) <= 16.0
  {
    forall k | 0 <= k < |ds|
      ensures 4.0 <= NormSquared(PointRecords(trig, ds)[k].position.value) <= 16.0
    {
      var d := ds[k];
      SphericalNorm(trig, d.radius, d.phi, d.theta);
      assert 4.0 <= 2.0 * d.radius <= d.radius * d.radius;
      assert d.radius * d.radius <= 4.0 * d.radius <= 16.0;
    }
  }

  /**
   * `setup_random_lighting`: `num_lights` point lights at spherical positions within
   * the radius bounds, with energies drawn between the energy bounds and the default
   * white colour and 0.1 size.
   */
  method SetupRandomLighting(trig: Trig, numLights: int, minRadius: real, maxRadius: real,
                             minEnergy: real, maxEnergy: real, ds: seq<PointDraw>)
    returns (lights: seq<Light>)
    requires |ds| == if numLights < 0 then 0 else numLights
    requires forall k :: 0 <= k < |ds| ==> Between(ds[k].radius, minRadius, maxRadius) && Between(ds[k].energy, minEnergy, maxEnergy)
    ensures |lights| == |ds|
    ensures forall k :: 0 <= k < |lights| ==>
      lights[k] == AddPointLight(PointPosition(trig, ds[k]), ds[k].energy, White, DefaultPointSize)
    ensures forall k :: 0 <= k < |lights| ==> Between(lights[k].energy, minEnergy, maxEnergy)
  {
    lights := [];
    var i := 0;
    while i < numLights
      invariant 0 <= i <= |ds|
      invariant numLights > 0 ==> i <= numLights
      invariant |lights| == i
      invariant forall k :: 0 <= k < i ==>
        lights[k] == AddPointLight(PointPosition(trig, ds[k]), ds[k].energy, White, DefaultPointSize)
    {
      var d := ds[i];
      var light := AddPointLight(Spherical(trig, d.radius, d.phi, d.theta), d.energy, White, DefaultPointSize);
      lights := lights + [light];
      i := i + 1;
    }
  }

  /** `random.uniform(a, b)` lies between its bounds in either order. */
  predicate Between(x: real, a: real, b: real) {
    if a <= b then Within(x, a, b) else Within(x, b, a)
  }

  /** With sine and cosine as they are, `setup_random_lighting` places lights within its radius bounds. */
  lemma SetupRandomLightingDistances(trig: Trig, d: PointDraw, minRadius: real, maxRadius: real)
    requires Pythagorean(trig)
    requires 0.0 <= minRadius <= maxRadius
    requires Between(d.radius, minRadius, maxRadius)
    ensures minRadius * minRadius <= NormSquared(PointPosition(trig, d)) <= maxRadius * maxRadius
  {
    SphericalNorm(trig, d.radius, d.phi, d.theta);
    assert minRadius * minRadius <= d.radius * minRadius <= d.radius * d.radius;
    assert d.radius * d.radius <= d.radius * maxRadius <= maxRadius * maxRadius;
  }
}
