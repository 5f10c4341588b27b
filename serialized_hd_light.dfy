/** The editor's view of the selected light components: the serialized
    intensity properties the inspector edits, and the light `type`, which is read
    from and written to the components themselves, with a sentinel when the
    selection mixes types. */
module SerializedLight {
  import opened LightTypes
  import opened AdditionalLighting

  /** Some type differs from the first one: the test the editor's loop performs. */
  predicate DiffersFromFirst(types: seq<LightType>)
  {
    exists i :: 1 <= i < |types| && types[i] != types[0]
  }

  /** Some two types differ. */
  predicate Mixed(types: seq<LightType>)
  {
    exists i, j :: 0 <= i < |types| && 0 <= j < |types| && types[i] != types[j]
  }

  /** Comparing against the first type alone finds every mix. */
  lemma DiffersFromFirstIffMixed(types: seq<LightType>)
    ensures DiffersFromFirst(types) <==> Mixed(types)
  {
    if Mixed(types) {
      var i, j :| 0 <= i < |types| && 0 <= j < |types| && types[i] != types[j];
      if types[i] != types[0] {
        assert 1 <= i < |types| && types[i] != types[0];
      } else {
        assert 1 <= j < |types| && types[j] != types[0];
      }
    }
    if DiffersFromFirst(types) {
      var i :| 1 <= i < |types| && types[i] != types[0];
      assert 0 <= i < |types| && types[i] != types[0];
    }
  }

  /** A single selected light never mixes types. */
  lemma SingleTargetNotMixed(types: seq<LightType>)
    requires |types| == 1
    ensures !Mixed(types)
  {
  }

  class SerializedHDLight {
    /** The selected components (`serializedObject.targetObjects`). */
    const targets: seq<AdditionalLightData>
    // the serialized properties, holding the first target's values until applied
    var intensity: real
    var lightUnit: LightUnit
    var enableSpotReflector: bool
    var luxAtDistance: real
    var aspectRatio: real
    /** `settings.areaSizeX` / `settings.areaSizeY` of the inspected host lights. */
    var areaSizeX: real
    var areaSizeY: real

    /** A serialized object always has at least one target. */
    predicate Valid() {
      |targets| > 0
    }

    /** The host lights of the selection. */
    function Lights(): set<HostLight> {
      set i | 0 <= i < |targets| :: targets[i].light
    }

    /** The type of every selected light, in selection order. */
    function Types(): (r: seq<LightType>)
      reads Lights()
      ensures |r| == |targets|
      ensures forall i :: 0 <= i < |targets| ==> r[i] == targets[i].light.lightType
    {
      seq(|targets|, i requires 0 <= i < |targets| reads Lights() => targets[i].light.lightType)
    }

    /** Reads the serialized properties of `lightDatas`, as the first of them holds them. */
    constructor (lightDatas: seq<AdditionalLightData>)
      requires |lightDatas| > 0
      ensures Valid() && targets == lightDatas
      ensures intensity == lightDatas[0].intensity && lightUnit == lightDatas[0].lightUnit
      ensures enableSpotReflector == lightDatas[0].enableSpotReflector
      ensures luxAtDistance == lightDatas[0].luxAtDistance && aspectRatio == lightDatas[0].aspectRatio
      ensures areaSizeX == lightDatas[0].light.areaSize.x && areaSizeY == lightDatas[0].light.areaSize.y
    {
      targets := lightDatas;
      var first := lightDatas[0];
      intensity := first.intensity;
      lightUnit := first.lightUnit;
      enableSpotReflector := first.enableSpotReflector;
      luxAtDistance := first.luxAtDistance;
      aspectRatio := first.aspectRatio;
      areaSizeX := first.light.areaSize.x;
      areaSizeY := first.light.areaSize.y;
    }

    /** `haveMultipleTypeValue`: some target's type differs from the first target's. */
    method HaveMultipleTypeValue() returns (r: bool)
      requires Valid()
      ensures r <==> Mixed(Types())
    {
      var value := targets[0].light.lightType;
      var index := 1;
      while index < |targets|
        invariant 1 <= index <= |targets|
        invariant forall j :: 1 <= j < index ==> targets[j].light.lightType == value
      {
        if value != targets[index].light.lightType {
          DiffersFromFirstIffMixed(Types());
          assert Types()[index] != Types()[0];
          return true;
        }
        index := index + 1;
      }
      DiffersFromFirstIffMixed(Types());
      return false;
    }

    /** The `type` getter: the sentinel when the types are mixed, otherwise the
        first target's type, which is then the type of every target. */
    method GetType() returns (t: TypeSelection)
      requires Valid()
      ensures t == MixedTypes <==> Mixed(Types())
      ensures t.Uniform? ==> forall i :: 0 <= i < |targets| ==> targets[i].light.lightType == t.lightType
    {
      var mixed := HaveMultipleTypeValue();
      if mixed {
        t := MixedTypes;
      } else {
        t := Uniform(targets[0].light.lightType);
        assert forall i :: 0 <= i < |targets| ==> Types()[i] == Types()[0];
      }
    }

    /** The `type` setter: every target gets `value`, so the selection is no longer mixed. */
    method SetType(value: LightType)
      requires Valid()
      modifies Lights()`lightType
      ensures forall i :: 0 <= i < |targets| ==> targets[i].light.lightType == value
      ensures !Mixed(Types())
    {
      var index := 0;
      while index < |targets|
        invariant 0 <= index <= |targets|
        invariant forall j :: 0 <= j < index ==> targets[j].light.lightType == value
      {
        targets[index].SetType(value);
        index := index + 1;
      }
    }
  }
}
