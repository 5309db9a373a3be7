/** SkinnedMeshBoneMapper: records the root bone name and the bone names of the
    skinned mesh renderer on the same game object, so that clothing can be
    re-bound to a base character skeleton at run time. */
module BoneMapping {
  import opened Results

  /** A SkinnedMeshRenderer, reduced to its bone transforms' names. A bone
      slot or the root bone may be null. */
  datatype SkinnedRenderer = SkinnedRenderer(rootBone: Option<string>, bones: seq<Option<string>>)

  /** The component's serialized state. `rootBoneName` is None while the C#
      field is null. */
  datatype BoneMapper = BoneMapper(rootBoneName: Option<string>, boneNames: seq<string>)

  /** The outcome of TryMapBones: its return value and the component afterwards. */
  datatype MapOutcome = MapOutcome(mapped: bool, mapper: BoneMapper)

  /** A freshly added component, before Reset runs. */
  function NewMapper(): (m: BoneMapper)
    ensures m.boneNames == []
    ensures m.rootBoneName.None?
  {
    BoneMapper(None, [])
  }

  /** bones.Where(t => t != null).Select(t => t.name): the names of the
      present bones, in their original order. */
  function PresentNames(bones: seq<Option<string>>): (names: seq<string>)
    ensures |names| <= |bones|
    ensures forall i :: 0 <= i < |bones| && bones[i].Some? ==> bones[i].value in names
  {
    if bones == [] then []
    else (if bones[0].Some? then [bones[0].value] else []) + PresentNames(bones[1..])
  }

  /** The number of null entries in a bone array. */
  function NullCount(bones: seq<Option<string>>): nat {
    if bones == [] then 0
    else (if bones[0].None? then 1 else 0) + NullCount(bones[1..])
  }

  /** TryMapBones. `renderer` is the SkinnedMeshRenderer found by
      TryGetComponent, or None when there is none. Reading the root bone's
      name throws when the root bone is null, before any field is written. */
  function TryMapBones(m: BoneMapper, renderer: Option<SkinnedRenderer>): (r: Result<MapOutcome>)
    ensures renderer.None? ==> r == Ok(MapOutcome(false, m))
    ensures renderer.Some? && renderer.value.rootBone.None? ==> r == Throws(NullReference)
    ensures r.Throws? <==> renderer.Some? && renderer.value.rootBone.None?
    ensures renderer.Some? && renderer.value.rootBone.Some? ==> r.Ok? && r.value.mapped
    ensures r.Ok? ==> (r.value.mapped <==> renderer.Some?)
    ensures r.Ok? && r.value.mapped ==>
      && r.value.mapper.rootBoneName == renderer.value.rootBone
      && r.value.mapper.boneNames == PresentNames(renderer.value.bones)
  {
    match renderer
    case None => Ok(MapOutcome(false, m))
    case Some(smr) =>
      match smr.rootBone
      case None => Throws(NullReference)
      case Some(root) => Ok(MapOutcome(true, BoneMapper(Some(root), PresentNames(smr.bones))))
  }

  /** Reset, which Unity calls when the component is added: it maps the bones
      and drops the return value. */
  function Reset(m: BoneMapper, renderer: Option<SkinnedRenderer>): (r: Result<BoneMapper>)
    ensures r.Ok? <==> TryMapBones(m, renderer).Ok?
    ensures r.Ok? ==> r.value == TryMapBones(m, renderer).value.mapper
    ensures r.Throws? ==> r.error == TryMapBones(m, renderer).error
  {
    match TryMapBones(m, renderer)
    case Ok(outcome) => Ok(outcome.mapper)
    case Throws(e) => Throws(e)
  }

  /** Filtering is piecewise: the names of a concatenation are the names of
      each part, so the original order is kept. */
  lemma {:induction false} PresentNamesDistributes(a: seq<Option<string>>, b: seq<Option<string>>)
    ensures PresentNames(a + b) == PresentNames(a) + PresentNames(b)
  {
    if a != [] {
      assert (a + b)[1..] == a[1..] + b;
      PresentNamesDistributes(a[1..], b);
    } else {
      assert a + b == b;
    }
  }

  /** Every name comes from a present bone (PresentNamesDistributes gives the
      order). */
  lemma {:induction false} PresentNamesFromBones(bones: seq<Option<string>>, k: nat)
    requires k < |PresentNames(bones)|
    ensures exists i :: 0 <= i < |bones| && bones[i] == Some(PresentNames(bones)[k])
  {
    if bones[0].Some? {
      if k == 0 {
        assert bones[0] == Some(PresentNames(bones)[k]);
      } else {
        PresentNamesFromBones(bones[1..], k - 1);
        var i :| 0 <= i < |bones[1..]| && bones[1..][i] == Some(PresentNames(bones[1..])[k - 1]);
        assert bones[i + 1] == Some(PresentNames(bones)[k]);
      }
    } else {
      PresentNamesFromBones(bones[1..], k);
      var i :| 0 <= i < |bones[1..]| && bones[1..][i] == Some(PresentNames(bones[1..])[k]);
      assert bones[i + 1] == Some(PresentNames(bones)[k]);
    }
  }

  /** The names are exactly as many as the bones minus the null slots, so
      they match the bones one for one exactly when no slot is null. */
  lemma {:induction false} PresentNamesLength(bones: seq<Option<string>>)
    ensures |PresentNames(bones)| == |bones| - NullCount(bones)
    ensures |PresentNames(bones)| == |bones| <==> forall i :: 0 <= i < |bones| ==> bones[i].Some?
  {
    if bones != [] {
      PresentNamesLength(bones[1..]);
      assert forall i :: 1 <= i < |bones| ==> bones[i] == bones[1..][i - 1];
      if |PresentNames(bones)| == |bones| {
        assert bones[0].Some?;
      }
    }
  }

  /** With no null slot the names are the bones' names one for one. */
  lemma {:induction false} PresentNamesAllPresent(bones: seq<Option<string>>)
    requires forall i :: 0 <= i < |bones| ==> bones[i].Some?
    ensures |PresentNames(bones)| == |bones|
    ensures forall i :: 0 <= i < |bones| ==> PresentNames(bones)[i] == bones[i].value
  {
    if bones != [] {
      assert forall i :: 1 <= i < |bones| ==> bones[i] == bones[1..][i - 1];
      PresentNamesAllPresent(bones[1..]);
    }
  }

  /** Mapping a second time against the same renderer gives the same
      component state and the same return value as mapping once. */
  lemma {:induction false} MapTwiceIsMapOnce(m: BoneMapper, renderer: Option<SkinnedRenderer>)
    requires TryMapBones(m, renderer).Ok?
    ensures TryMapBones(TryMapBones(m, renderer).value.mapper, renderer) == TryMapBones(m, renderer)
  {
  }
}
