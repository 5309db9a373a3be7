/** OutfitLibrary: a named, ordered collection of clothing prefabs that an
    object pool draws from at run time. */
module Library {
  import opened Results

  /** A saved clothing prefab, identified by the asset path it was saved to. */
  datatype Prefab = Prefab(assetPath: string)

  /** `outfitName` is None while the C# field is null. */
  datatype OutfitLibrary = OutfitLibrary(outfitName: Option<string>, dataItems: seq<Prefab>)
  {
    /** The `Count` property: how many prefabs the library holds. */
    function Count(): (n: nat)
      ensures n == |dataItems|
      ensures n == 0 <==> dataItems == []
    {
      |dataItems|
    }

    /** The condition OnValidate asserts: the name is assigned and not empty. */
    function IsValid(): (ok: bool)
      ensures ok <==> outfitName.Some? && |outfitName.value| > 0
    {
      outfitName.Some? && outfitName.value != ""
    }

    /** dataItems.Add(prefab). */
    function Add(prefab: Prefab): (r: OutfitLibrary)
      ensures r.Count() == Count() + 1
      ensures r.dataItems[..Count()] == dataItems && r.dataItems[Count()] == prefab
      ensures r.outfitName == outfitName
    {
      this.(dataItems := dataItems + [prefab])
    }

    /** Adding several prefabs one after another appends them in order. */
    function AddAll(prefabs: seq<Prefab>): (r: OutfitLibrary)
      ensures r.Count() == Count() + |prefabs|
      ensures r.dataItems[..Count()] == dataItems && r.dataItems[Count()..] == prefabs
      ensures r.outfitName == outfitName
      decreases |prefabs|
    {
      if prefabs == [] then this
      else
        var r := Add(prefabs[0]).AddAll(prefabs[1..]);
        assert r.dataItems[Count()..] == [prefabs[0]] + prefabs[1..];
        r
    }
  }

  /** ScriptableObject.CreateInstance<OutfitLibrary>(): a null name and an
      empty item list. */
  function NewLibrary(): (r: OutfitLibrary)
    ensures r.Count() == 0
    ensures !r.IsValid()
  {
    OutfitLibrary(None, [])
  }

  /** Only a library with a non-empty name passes OnValidate, whatever its items. */
  lemma {:induction false} ValidityIsAboutTheName(lib: OutfitLibrary, name: string, items: seq<Prefab>)
    ensures lib.(outfitName := Some(name)).IsValid() <==> name != ""
    ensures !lib.(outfitName := None).IsValid()
    ensures lib.(dataItems := items).IsValid() == lib.IsValid()
  {
  }

  /** Adding a batch appends it to the items and keeps the name. */
  lemma {:induction false} AddAllAppends(lib: OutfitLibrary, prefabs: seq<Prefab>)
    ensures lib.AddAll(prefabs) == lib.(dataItems := lib.dataItems + prefabs)
  {
    var r := lib.AddAll(prefabs);
    assert r.dataItems == r.dataItems[..lib.Count()] + r.dataItems[lib.Count()..];
  }

  /** Adding prefabs one by one and adding them as a batch agree. */
  lemma {:induction false} AddAllSplits(lib: OutfitLibrary, a: seq<Prefab>, b: seq<Prefab>)
    ensures lib.AddAll(a + b) == lib.AddAll(a).AddAll(b)
  {
    var x := lib.AddAll(a + b);
    var y := lib.AddAll(a).AddAll(b);
    assert x.dataItems == lib.dataItems + a + b;
    assert y.dataItems == lib.dataItems + a + b;
  }
}
