/** What `setup_lighting_from_metadata` does with every record, good or bad. */
module ReplayLaws {
  import opened Wrappers
  import opened Geometry
  import opened LightingMetadata

  /**
   * The record-level checks: a missing or unknown `lighting_type` is a hard error,
   * `env_map` yields no lights whatever else the record holds, and any other
   * archetype needs a `lights` array.
   */
  lemma TopLevelRules(m: Metadata)
    ensures m.lightingType.None? ==> Decode(m) == Failure(MissingLightingType)
    ensures m.lightingType.Some? && m.lightingType.value !in LightingTypeNames ==>
      Decode(m) == Failure(InvalidLightingType(m.lightingType.value))
    ensures m.lightingType == Some("env_map") ==> Decode(m) == Success([])
    ensures (m.lightingType.Some? && m.lightingType.value in LightingTypeNames - {"env_map"} && m.lights.None?)
      ==> Decode(m) == Failure(MissingLights(m.lightingType.value))
  {
  }

  /**
   * How one entry is treated: an absent discriminant raises a KeyError naming it, an
   * unrecognised value is passed over, and a recognised value never is.
   */
  lemma EntryClassification(a: Archetype, e: LightRecord)
    requires a != EnvMap
    ensures Discriminant(a, e).None? <==> DecodeEntry(a, e) == Failure(MissingKey(DiscriminantKey(a)))
    ensures DecodeEntry(a, e) == Success(None) <==>
      Discriminant(a, e).Some? && Discriminant(a, e).value !in RecognisedValues(a)
  {
  }

  /** An entry with an unrecognised discriminant contributes nothing, wherever it stands. */
  lemma UnrecognisedEntrySkipped(a: Archetype, xs: seq<LightRecord>, e: LightRecord, ys: seq<LightRecord>)
    requires a != EnvMap
    requires Discriminant(a, e).Some? && Discriminant(a, e).value !in RecognisedValues(a)
    ensures DecodeEntries(a, xs + [e] + ys) == DecodeEntries(a, xs + ys)
  {
    EntryClassification(a, e);
    assert DecodeEntries(a, [e]) == Success([]) by {
      assert [e][..0] == [];
    }
    DecodeEntriesAppend(a, xs, [e]);
    DecodeEntriesAppend(a, xs + [e], ys);
    DecodeEntriesAppend(a, xs, ys);
    if DecodeEntries(a, xs).Success? {
      assert DecodeEntries(a, xs).value + [] == DecodeEntries(a, xs).value;
    }
  }

  /**
   * An entry without its discriminant aborts the whole replay, unless an earlier
   * entry has already raised.
   */
  lemma MissingDiscriminantAborts(a: Archetype, xs: seq<LightRecord>, e: LightRecord, ys: seq<LightRecord>)
    requires a != EnvMap
    requires DecodeEntries(a, xs).Success?
    requires Discriminant(a, e).None?
    ensures DecodeEntries(a, xs + [e] + ys) == Failure(MissingKey(DiscriminantKey(a)))
  {
    EntryClassification(a, e);
    assert DecodeEntries(a, [e]) == Failure(MissingKey(DiscriminantKey(a))) by {
      assert [e][..0] == [];
    }
    DecodeEntriesAppend(a, xs, [e]);
    DecodeEntriesAppend(a, xs + [e], ys);
  }

  /** The number of entries a replay loop creates a light for. */
  function CountRecognised(a: Archetype, es: seq<LightRecord>): nat
    decreases |es|
  {
    if es == [] then 0
    else
      var e := es[|es| - 1];
      var d := Discriminant(a, e);
      CountRecognised(a, es[..|es| - 1]) + if d.Some? && d.value in RecognisedValues(a) then 1 else 0
  }

  /** A successful replay creates exactly one light per recognised entry. */
  lemma {:induction false} ReplayCount(a: Archetype, es: seq<LightRecord>)
    requires a != EnvMap
    requires DecodeEntries(a, es).Success?
    ensures |DecodeEntries(a, es).value| == CountRecognised(a, es)
    decreases |es|
  {
    if es != [] {
      var e := es[|es| - 1];
      assert DecodeEntries(a, es) == Extend(DecodeEntries(a, es[..|es| - 1]), DecodeEntry(a, e));
      ReplayCount(a, es[..|es| - 1]);
      EntryClassification(a, e);
    }
  }

  /**
   * When every entry is recognised and complete, the replay succeeds and yields the
   * entries' lights one for one, in input order.
   */
  lemma {:induction false} ReplayInOrder(a: Archetype, es: seq<LightRecord>)
    requires a != EnvMap
    requires forall k :: 0 <= k < |es| ==> DecodeEntry(a, es[k]).Success? && DecodeEntry(a, es[k]).value.Some?
    ensures DecodeEntries(a, es).Success?
    ensures |DecodeEntries(a, es).value| == |es|
    ensures forall k :: 0 <= k < |es| ==> DecodeEntries(a, es).value[k] == DecodeEntry(a, es[k]).value.value
    decreases |es|
  {
    if es != [] {
      var init := es[..|es| - 1];
      assert forall k :: 0 <= k < |init| ==> init[k] == es[k];
      ReplayInOrder(a, init);
      assert DecodeEntries(a, es) == Extend(DecodeEntries(a, init), DecodeEntry(a, es[|es| - 1]));
    }
  }

  /** A studio entry with the given role and the geometry of the key light. */
  function StudioExampleEntry(role: string): LightRecord {
    LightRecord(Some("area"), Some(role), Some(1000.0), Some(4500.0), None,
                Some(Vec3(4.0, -4.0, 4.0)), Some(Vec3(0.0, 0.0, 0.0)), Some(PairSize(2.0, 1.0)), None)
  }

  /** A studio record whose middle entry has an unknown role replays to the other two lights. */
  lemma UnknownStudioRoleExample()
    ensures
      var m := Metadata(Some("studio"), Some([StudioExampleEntry("key"), StudioExampleEntry("unknown"), StudioExampleEntry("back")]), None);
      Decode(m).Success? && |Decode(m).value| == 2
  {
    var es := [StudioExampleEntry("key"), StudioExampleEntry("unknown"), StudioExampleEntry("back")];
    assert es == [StudioExampleEntry("key")] + [StudioExampleEntry("unknown")] + [StudioExampleEntry("back")];
    UnrecognisedEntrySkipped(Studio, [StudioExampleEntry("key")], StudioExampleEntry("unknown"), [StudioExampleEntry("back")]);
    var kept := [StudioExampleEntry("key"), StudioExampleEntry("back")];
    assert [StudioExampleEntry("key")] + [StudioExampleEntry("back")] == kept;
    ReplayInOrder(Studio, kept);
  }
}
