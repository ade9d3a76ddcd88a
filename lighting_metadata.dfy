/**
 * The metadata record that `generate_random_lighting_setup` emits and
 * `setup_lighting_from_metadata` replays, and the replay itself.
 *
 * The record is a typed value: each dictionary key becomes an `Option` field,
 * `None` standing for a key that is absent.
 */
module LightingMetadata {
  import opened Wrappers
  import opened Geometry
  import opened LightDescriptors
  import opened ColorTemperature

  /** The `size` entry: a float for point lights, a `[width, height]` list for area lights. */
  datatype Size = ScalarSize(value: real) | PairSize(width: real, height: real)

  /** One entry of `metadata["lights"]`; `kind` is the `"type"` key. */
  datatype LightRecord = LightRecord(
    kind: Option<string>,
    role: Option<string>,
    energy: Option<real>,
    colorTemperature: Option<real>,
    color: Option<Rgb>,
    position: Option<Vec3>,
    rotation: Option<Vec3>,
    size: Option<Size>,
    angle: Option<real>)

  /** `metadata["env_map"]`. */
  datatype EnvMapRecord = EnvMapRecord(strength: real)

  /** The whole record: `lighting_type`, `lights` and `env_map`. */
  datatype Metadata = Metadata(
    lightingType: Option<string>,
    lights: Option<seq<LightRecord>>,
    envMap: Option<EnvMapRecord>)

  /** The five lighting archetypes, in the order of the source's weight table. */
  datatype Archetype = Studio | Dramatic | Natural | RandomPoints | EnvMap

  /** The name each archetype is stored under in `lighting_type`. */
  function Name(a: Archetype): string {
    match a
    case Studio => "studio"
    case Dramatic => "dramatic"
    case Natural => "natural"
    case RandomPoints => "random"
    case EnvMap => "env_map"
  }

  const LightingTypeNames: set<string> := {"studio", "dramatic", "natural", "random", "env_map"}

  /** The archetype a stored name denotes, if it is one of the five. */
  function ArchetypeNamed(s: string): (a: Option<Archetype>)
    ensures a.Some? <==> s in LightingTypeNames
    ensures a.Some? ==> Name(a.value) == s
  {
    if s == "studio" then Some(Studio)
    else if s == "dramatic" then Some(Dramatic)
    else if s == "natural" then Some(Natural)
    else if s == "random" then Some(RandomPoints)
    else if s == "env_map" then Some(EnvMap)
    else None
  }

  /** Names and archetypes are inverse to each other. */
  lemma NameRoundTrip(a: Archetype)
    ensures Name(a) in LightingTypeNames
    ensures ArchetypeNamed(Name(a)) == Some(a)
  {
  }

  /** The exceptions the lighting code raises. */
  datatype Error =
    | InvalidLightingType(value: string)   // ValueError: not one of the five names
    | MissingLightingType                  // ValueError: no `lighting_type`
    | MissingLights(lightingType: string)  // KeyError: no `lights` array
    | MissingKey(key: string)              // KeyError: `light_info[key]` on an absent key
    | WrongSizeForm(key: string)           // TypeError: a float where a list is needed, or back

  /** `light_info[key]`. */
  function Lookup<T>(field: Option<T>, key: string): Result<T, Error> {
    match field
    case Some(v) => Success(v)
    case None => Failure(MissingKey(key))
  }

  /** `tuple(light_info['size'])` for an area light. */
  function LookupPair(field: Option<Size>): Result<(real, real), Error> {
    match field
    case Some(PairSize(w, h)) => Success((w, h))
    case Some(ScalarSize(_)) => Failure(WrongSizeForm("size"))
    case None => Failure(MissingKey("size"))
  }

  /** `light_info['size']` handed to a point light's `shadow_soft_size`. */
  function LookupScalar(field: Option<Size>): Result<real, Error> {
    match field
    case Some(ScalarSize(s)) => Success(s)
    case Some(PairSize(_, _)) => Failure(WrongSizeForm("size"))
    case None => Failure(MissingKey("size"))
  }

  /** The key that decides what an entry is: `role` for studio, `type` for the others. */
  function DiscriminantKey(a: Archetype): string {
    if a == Studio then "role" else "type"
  }

  function Discriminant(a: Archetype, e: LightRecord): Option<string> {
    if a == Studio then e.role else e.kind
  }

  /** The discriminant values each archetype's replay loop acts on. */
  function RecognisedValues(a: Archetype): set<string> {
    match a
    case Studio => {"key", "fill", "back"}
    case Dramatic => {"area"}
    case Natural => {"sun", "area"}
    case RandomPoints => {"point"}
    case EnvMap => {}
  }

  /**
   * One iteration of a replay loop: the light an entry creates, `None` for an entry
   * the loop passes over, or the exception a missing key raises. The keys are read in
   * the order the source evaluates the creator's arguments.
   */
  function DecodeEntry(a: Archetype, e: LightRecord): (r: Result<Option<Light>, Error>)
    requires a != EnvMap
    ensures r.Failure? ==> r.error.MissingKey? || r.error == WrongSizeForm("size")
    ensures r.Success? && r.value.Some? ==>
      && (r.value.value.PointLight? <==> a == RandomPoints)
      && (r.value.value.SunLight? <==> a == Natural && e.kind == Some("sun"))
      && (r.value.value.AreaLight? ==> r.value.value.shape == Rectangle)
  {
    var disc := Discriminant(a, e);
    if disc.None? then Failure(MissingKey(DiscriminantKey(a)))
    else match a
      case Studio =>
        if disc.value in {"key", "fill", "back"} then
          var position :- Lookup(e.position, "position");
          var rotation :- Lookup(e.rotation, "rotation");
          var energy :- Lookup(e.energy, "energy");
          var temperature :- Lookup(e.colorTemperature, "color_temperature");
          var size :- LookupPair(e.size);
          Success(Some(AddAreaLight(position, rotation, energy, BlackbodyToRgb(temperature),
                                    size, DefaultAreaShape)))
        else Success(None)
      case Dramatic =>
        if disc.value == "area" then
          var position :- Lookup(e.position, "position");
          var rotation :- Lookup(e.rotation, "rotation");
          var energy :- Lookup(e.energy, "energy");
          var temperature :- Lookup(e.colorTemperature, "color_temperature");
          var size :- LookupPair(e.size);
          Success(Some(AddAreaLight(position, rotation, energy, BlackbodyToRgb(temperature),
                                    size, Rectangle)))
        else Success(None)
      case Natural =>
        if disc.value == "sun" then
          var rotation :- Lookup(e.rotation, "rotation");
          var energy :- Lookup(e.energy, "energy");
          var temperature :- Lookup(e.colorTemperature, "color_temperature");
          var angle :- Lookup(e.angle, "angle");
          Success(Some(AddSunLight(rotation, energy, BlackbodyToRgb(temperature), angle)))
        else if disc.value == "area" then
          var position :- Lookup(e.position, "position");
          var energy :- Lookup(e.energy, "energy");
          var temperature :- Lookup(e.colorTemperature, "color_temperature");
          var size :- LookupPair(e.size);
          Success(Some(AddAreaLight(position, DefaultAreaRotation, energy,
                                    BlackbodyToRgb(temperature), size, DefaultAreaShape)))
        else Success(None)
      case RandomPoints =>
        if disc.value == "point" then
          var position :- Lookup(e.position, "position");
          var energy :- Lookup(e.energy, "energy");
          var color :- Lookup(e.color, "color");
          var size :- LookupScalar(e.size);
          Success(Some(AddPointLight(position, energy, color, size)))
        else Success(None)
  }

  /** A replay loop over the entries; the first exception ends it. */
  function DecodeEntries(a: Archetype, es: seq<LightRecord>): Result<seq<Light>, Error>
    requires a != EnvMap
    decreases |es|
  {
    if es == [] then Success([])
    else Extend(DecodeEntries(a, es[..|es| - 1]), DecodeEntry(a, es[|es| - 1]))
  }

  /** One more iteration after the loop has produced `done`. */
  function Extend(done: Result<seq<Light>, Error>, next: Result<Option<Light>, Error>): Result<seq<Light>, Error> {
    match done
    case Failure(e) => Failure(e)
    case Success(ls) =>
      match next
      case Failure(e) => Failure(e)
      case Success(None) => Success(ls)
      case Success(Some(l)) => Success(ls + [l])
  }

  /** What `setup_lighting_from_metadata` returns or raises. */
  function Decode(m: Metadata): (r: Result<seq<Light>, Error>)
    ensures r.Success? ==> m.lightingType.Some? && m.lightingType.value in LightingTypeNames
    ensures r.Success? && m.lightingType != Some("env_map") ==> m.lights.Some?
    ensures m.lightingType == Some("env_map") ==> r == Success([])
  {
    match m.lightingType
    case None => Failure(MissingLightingType)
    case Some(t) =>
      match ArchetypeNamed(t)
      case None => Failure(InvalidLightingType(t))
      case Some(a) =>
        if a == EnvMap then Success([])
        else match m.lights
          case None => Failure(MissingLights(t))
          case Some(es) => DecodeEntries(a, es)
  }

  /** `setup_lighting_from_metadata`: validate the record, then run the archetype's loop. */
  method SetupLightingFromMetadata(m: Metadata) returns (r: Result<seq<Light>, Error>)
    ensures r == Decode(m)
  {
    if m.lightingType.None? {
      return Failure(MissingLightingType);
    }
    var t := m.lightingType.value;
    if t !in LightingTypeNames {
      return Failure(InvalidLightingType(t));
    }
    var a := ArchetypeNamed(t).value;
    var lights: seq<Light> := [];
    if a == EnvMap {
      return Success(lights);
    }
    if m.lights.None? {
      return Failure(MissingLights(t));
    }
    var es := m.lights.value;
    var i := 0;
    while i < |es|
      invariant 0 <= i <= |es|
      invariant DecodeEntries(a, es[..i]) == Success(lights)
    {
      assert es[..i + 1][..i] == es[..i];
      var entry := DecodeEntry(a, es[i]);
      if entry.Failure? {
        assert es == es[..i + 1] + es[i + 1..];
        DecodeEntriesAppend(a, es[..i + 1], es[i + 1..]);
        return Failure(entry.error);
      }
      if entry.value.Some? {
        lights := lights + [entry.value.value];
      }
      i := i + 1;
    }
    assert es[..i] == es;
    r := Success(lights);
  }

  /** Sequencing two results of replay loops: the first exception wins, else the lights concatenate. */
  function Then(first: Result<seq<Light>, Error>, second: Result<seq<Light>, Error>): Result<seq<Light>, Error> {
    match first
    case Failure(e) => Failure(e)
    case Success(l1) =>
      match second
      case Failure(e) => Failure(e)
      case Success(l2) => Success(l1 + l2)
  }

  /**
   * Replaying a list is replaying its two halves in order: lights come out in input
   * order, and the exception reported is the one the earliest faulty entry raises.
   */
  lemma {:induction false} DecodeEntriesAppend(a: Archetype, xs: seq<LightRecord>, ys: seq<LightRecord>)
    requires a != EnvMap
    ensures DecodeEntries(a, xs + ys) == Then(DecodeEntries(a, xs), DecodeEntries(a, ys))
    decreases |ys|
  {
    if ys == [] {
      assert xs + ys == xs;
      if DecodeEntries(a, xs).Success? {
        assert DecodeEntries(a, xs).value + [] == DecodeEntries(a, xs).value;
      }
    } else {
      var ys' := ys[..|ys| - 1];
      assert (xs + ys)[..|xs + ys| - 1] == xs + ys';
      assert (xs + ys)[|xs + ys| - 1] == ys[|ys| - 1];
      DecodeEntriesAppend(a, xs, ys');
      var next := DecodeEntry(a, ys[|ys| - 1]);
      assert DecodeEntries(a, xs + ys) == Extend(DecodeEntries(a, xs + ys'), next);
      assert DecodeEntries(a, ys) == Extend(DecodeEntries(a, ys'), next);
      if next.Success? && next.value.Some? && DecodeEntries(a, xs).Success? && DecodeEntries(a, ys').Success? {
        assert DecodeEntries(a, xs).value + (DecodeEntries(a, ys').value + [next.value.value])
            == (DecodeEntries(a, xs).value + DecodeEntries(a, ys').value) + [next.value.value];
      }
    }
  }
}
