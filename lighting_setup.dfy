/**
 * The schema of the metadata a generation call emits, the top-level
 * `generate_random_lighting_setup`, and the round trip through
 * `setup_lighting_from_metadata`.
 */
module LightingSetup {
  import opened Wrappers
  import opened Geometry
  import opened LightDescriptors
  import opened ColorTemperature
  import opened LightingMetadata
  import opened ReplayLaws
  import opened LightingGeneration

  // ---------------------------------------------------------------- schema

  predicate EnergyIn(e: LightRecord, low: real, high: real) {
    e.energy.Some? && Within(e.energy.value, low, high)
  }

  predicate TemperatureIn(e: LightRecord, band: Band) {
    e.colorTemperature.Some? && InBand(e.colorTemperature.value, band)
  }

  predicate PairSizeIn(e: LightRecord, low: real, high: real) {
    e.size.Some? && e.size.value.PairSize? &&
    Within(e.size.value.width, low, high) && Within(e.size.value.height, low, high)
  }

  /** A studio entry: fixed geometry, sampled energy and temperature, no stored colour. */
  predicate StudioEntry(e: LightRecord, role: string, position: Vec3, rotation: Vec3, size: (real, real),
                        low: real, high: real, band: Band) {
    && e.kind == Some("area") && e.role == Some(role)
    && e.position == Some(position) && e.rotation == Some(rotation)
    && e.size == Some(PairSize(size.0, size.1))
    && EnergyIn(e, low, high) && TemperatureIn(e, band)
    && e.color.None? && e.angle.None?
  }

  predicate StudioConforms(es: seq<LightRecord>) {
    && |es| == 3
    && StudioEntry(es[0], "key", KeyPosition, KeyRotation, KeySize, 800.0, 1500.0, Neutral)
    && StudioEntry(es[1], "fill", FillPosition, FillRotation, FillSize, 200.0, 600.0, Cool)
    && StudioEntry(es[2], "back", BackPosition, BackRotation, BackSize, 400.0, 800.0, Warm)
  }

  predicate DramaticEntry(e: LightRecord, n: nat) {
    && e.kind == Some("area") && e.role == Some("dramatic_" + NatToString(n))
    && EnergyIn(e, 1000.0, 2000.0) && TemperatureIn(e, Warm)
    && e.position.Some? && e.rotation.Some? && e.rotation.value.y == 0.0
    && PairSizeIn(e, 0.5, 2.0)
    && e.color.None? && e.angle.None?
  }

  predicate DramaticConforms(es: seq<LightRecord>) {
    1 <= |es| <= 2 && forall k :: 0 <= k < |es| ==> DramaticEntry(es[k], k + 1)
  }

  predicate SunEntry(sun: LightRecord) {
    && sun.kind == Some("sun") && sun.role == Some("main")
    && EnergyIn(sun, 2.0, 5.0) && TemperatureIn(sun, Neutral)
    && sun.rotation.Some?
    && Within(sun.rotation.value.x, Radians(-60.0), Radians(-30.0))
    && Within(sun.rotation.value.y, 0.0, Radians(360.0))
    && sun.rotation.value.z == 0.0
    && sun.angle.Some? && Within(sun.angle.value, Radians(0.5), Radians(5.0))
    && sun.position.None? && sun.size.None? && sun.color.None?
  }

  predicate FillEntry(fill: LightRecord) {
    && fill.kind == Some("area") && fill.role == Some("fill")
    && EnergyIn(fill, 200.0, 400.0) && TemperatureIn(fill, Cool)
    && fill.position.Some?
    && Within(fill.position.value.x, -3.0, 3.0)
    && Within(fill.position.value.y, -3.0, 3.0)
    && Within(fill.position.value.z, 1.0, 3.0)
    && PairSizeIn(fill, 1.0, 3.0)
    && fill.rotation.None? && fill.color.None? && fill.angle.None?
  }

  predicate NaturalConforms(es: seq<LightRecord>) {
    |es| == 2 && SunEntry(es[0]) && FillEntry(es[1])
  }

  predicate PointEntry(e: LightRecord, n: nat) {
    && e.kind == Some("point") && e.role == Some("random_" + NatToString(n))
    && EnergyIn(e, 300.0, 800.0) && TemperatureIn(e, Neutral)
    && e.color == Some(BlackbodyToRgb(e.colorTemperature.value))
    && e.position.Some? && e.size == Some(ScalarSize(0.1))
    && e.rotation.None? && e.angle.None?
  }

  predicate RandomConforms(es: seq<LightRecord>) {
    2 <= |es| <= 5 && forall k :: 0 <= k < |es| ==> PointEntry(es[k], k + 1)
  }

  /** What the metadata of a generated setup of archetype `a` looks like. */
  predicate Conforms(a: Archetype, m: Metadata) {
    && m.lightingType == Some(Name(a))
    && m.lights.Some?
    && (m.envMap.Some? <==> a == EnvMap)
    && match a
       case EnvMap => m.lights.value == [] && Within(m.envMap.value.strength, 0.8, 1.5)
       case Studio => StudioConforms(m.lights.value)
       case Dramatic => DramaticConforms(m.lights.value)
       case Natural => NaturalConforms(m.lights.value)
       case RandomPoints => RandomConforms(m.lights.value)
  }

  // ---------------------------------------------------------------- emitted records conform

  lemma StudioRecordsConform(d: StudioDraw)
    requires StudioDrawInRange(d)
    ensures StudioConforms(StudioRecords(d))
  {
    assert Radians(0.0) == 0.0;
  }

  lemma DramaticRecordsConform(trig: Trig, ds: seq<DramaticDraw>)
    requires 1 <= |ds| <= 2
    requires forall k :: 0 <= k < |ds| ==> DramaticDrawInRange(ds[k])
    ensures DramaticConforms(DramaticRecords(trig, ds))
  {
  }

  lemma NaturalRecordsConform(d: NaturalDraw)
    requires NaturalDrawInRange(d)
    ensures NaturalConforms(NaturalRecords(d))
  {
  }

  lemma PointRecordsConform(trig: Trig, ds: seq<PointDraw>)
    requires 2 <= |ds| <= 5
    requires forall k :: 0 <= k < |ds| ==> PointDrawInRange(ds[k])
    ensures RandomConforms(PointRecords(trig, ds))
  {
  }

  /** The numbered roles `dramatic_<n>` and `random_<n>` of one call are pairwise different. */
  lemma NumberedRolesDistinct(trig: Trig, ds: seq<DramaticDraw>, ps: seq<PointDraw>)
    ensures forall j, k :: 0 <= j < k < |ds| ==> DramaticRecords(trig, ds)[j].role != DramaticRecords(trig, ds)[k].role
    ensures forall j, k :: 0 <= j < k < |ps| ==> PointRecords(trig, ps)[j].role != PointRecords(trig, ps)[k].role
  {
    forall j, k | 0 <= j < k < |ds|
      ensures DramaticRecords(trig, ds)[j].role != DramaticRecords(trig, ds)[k].role
    {
      if DramaticRecords(trig, ds)[j].role == DramaticRecords(trig, ds)[k].role {
        RoleSuffixInjective(j + 1, k + 1, "dramatic_");
      }
    }
    forall j, k | 0 <= j < k < |ps|
      ensures PointRecords(trig, ps)[j].role != PointRecords(trig, ps)[k].role
    {
      if PointRecords(trig, ps)[j].role == PointRecords(trig, ps)[k].role {
        RoleSuffixInjective(j + 1, k + 1, "random_");
      }
    }
  }

  // ---------------------------------------------------------------- replaying conforming records

  /**
   * A light carries what its entry of an archetype-`a` record says: kind, energy, place,
   * colour, rotation, size and angle. The natural fill is the one light whose rotation
   * is not stored: it keeps the creator's default.
   */
  predicate Realises(a: Archetype, l: Light, e: LightRecord) {
    && e.energy == Some(l.energy)
    && (l.AreaLight? <==> e.kind == Some("area"))
    && (l.SunLight? <==> e.kind == Some("sun"))
    && (l.PointLight? <==> e.kind == Some("point"))
    && (!l.SunLight? ==> e.position == Some(l.location))
    && (e.color.Some? ==> l.color == e.color.value)
    && (e.color.None? ==> e.colorTemperature.Some? && l.color == BlackbodyToRgb(e.colorTemperature.value))
    && (l.AreaLight? ==>
          && l.shape == Rectangle && l.sizeY.Some?
          && e.size == Some(PairSize(l.sizeX, l.sizeY.value))
          && (if a == Natural then l.rotation == DefaultAreaRotation else e.rotation == Some(l.rotation)))
    && (l.SunLight? ==> e.rotation == Some(l.rotation) && e.angle == Some(l.angle))
    && (l.PointLight? ==> e.size == Some(ScalarSize(l.shadowSoftSize)))
  }

  lemma EntryReplays(a: Archetype, e: LightRecord)
    requires a != EnvMap
    requires DecodeEntry(a, e).Success? && DecodeEntry(a, e).value.Some?
    requires e.kind.Some? && e.kind.value in {"area", "sun", "point"}
    requires a == Studio ==> e.kind == Some("area") && e.color.None?
    requires a == Dramatic || a == Natural ==> e.color.None?
    requires a == RandomPoints ==> e.color.Some?
    ensures Realises(a, DecodeEntry(a, e).value.value, e)
  {
  }

  /**
   * Every record that has the shape of generated metadata replays without error, to
   * one light per entry, in order, each carrying what its entry says.
   */
  lemma ConformingReplays(a: Archetype, m: Metadata)
    requires Conforms(a, m)
    ensures Decode(m).Success?
    ensures |Decode(m).value| == |m.lights.value|
    ensures forall k :: 0 <= k < |m.lights.value| ==> Realises(a, Decode(m).value[k], m.lights.value[k])
  {
    NameRoundTrip(a);
    if a != EnvMap {
      var es := m.lights.value;
      forall k | 0 <= k < |es|
        ensures DecodeEntry(a, es[k]).Success? && DecodeEntry(a, es[k]).value.Some?
        ensures Realises(a, DecodeEntry(a, es[k]).value.value, es[k])
      {
        EntryReplays(a, es[k]);
      }
      ReplayInOrder(a, es);
    }
  }

  // ---------------------------------------------------------------- generation

  /** The light entries the branch of the drawn archetype stores, in the order it appends them. */
  function BranchRecords(trig: Trig, d: Draws): seq<LightRecord> {
    match d
    case StudioDraws(s) => StudioRecords(s)
    case DramaticDraws(ds) => DramaticRecords(trig, ds)
    case NaturalDraws(n) => NaturalRecords(n)
    case RandomDraws(ps) => PointRecords(trig, ps)
    case EnvMapDraws(_) => []
  }

  /** The metadata a generation call with these draws returns; only `env_map` stores a strength. */
  function BranchMetadata(trig: Trig, d: Draws): Metadata {
    Metadata(Some(Name(DrawsArchetype(d))), Some(BranchRecords(trig, d)),
             if d.EnvMapDraws? then Some(EnvMapRecord(d.strength)) else None)
  }

  /** What a generation call returns: the created lights and the metadata describing them. */
  datatype Generated = Generated(lights: seq<Light>, metadata: Metadata)

  /**
   * `generate_random_lighting_setup`. A bad forced name raises before anything is
   * drawn; otherwise the metadata stores every drawn value of the chosen branch, has
   * the archetype's shape and ranges, and replays to exactly the lights that were created.
   */
  method GenerateRandomLightingSetup(lightingType: Option<string>, u: real, draws: Draws, trig: Trig)
    returns (r: Result<Generated, Error>)
    requires lightingType.None? ==> 0.0 <= u < 1.0
    requires DrawsFit(lightingType, u, draws)
    ensures r.Failure? <==> lightingType.Some? && lightingType.value !in LightingTypeNames
    ensures r.Failure? ==> r.error == InvalidLightingType(lightingType.value)
    ensures r.Success? && lightingType.Some? ==> r.value.metadata.lightingType == lightingType
    ensures r.Success? ==> r.value.metadata == BranchMetadata(trig, draws)
    ensures r.Success? ==> Conforms(SelectLightingType(lightingType, u).value, r.value.metadata)
    ensures r.Success? ==> |r.value.lights| == |r.value.metadata.lights.value|
    ensures r.Success? ==> Decode(r.value.metadata) == Success(r.value.lights)
  {
    var selected := SelectLightingType(lightingType, u);
    if selected.Failure? {
      return Failure(selected.error);
    }
    var a := selected.value;
    NameRoundTrip(a);
    var lights: seq<Light> := [];
    var records: seq<LightRecord> := [];
    if a == EnvMap {
      var metadata := Metadata(Some(Name(a)), Some(records), Some(EnvMapRecord(draws.strength)));
      return Success(Generated(lights, metadata));
    } else if a == Studio {
      lights, records := GenerateStudio(draws.studio);
      StudioRecordsConform(draws.studio);
    } else if a == Dramatic {
      lights, records := GenerateDramatic(trig, draws.dramatic);
      DramaticRecordsConform(trig, draws.dramatic);
    } else if a == Natural {
      lights, records := GenerateNatural(draws.natural);
      NaturalRecordsConform(draws.natural);
    } else {
      lights, records := GenerateRandomPoints(trig, draws.points);
      PointRecordsConform(trig, draws.points);
    }
    var metadata := Metadata(Some(Name(a)), Some(records), None);
    r := Success(Generated(lights, metadata));
  }
}
