/** OutfitAssetImporter: an asset post-processor. Models dropped under the
    outfit folder get fixed import settings the first time they are imported,
    and after an import batch the Outfit Creator window opens on the first
    imported outfit model. */
module AssetImport {
  import Results
  import opened Strings
  import OutfitCreator

  /** Any model imported under this folder is treated as an outfit. */
  const OutfitModelPath := "Assets/Project/Models/Outfits"
  /** The base mesh whose avatar (skeleton) the outfits share. */
  const AvatarPath := "Assets/Models/CharacterBaseMesh.FBX"

  datatype MaterialImportMode = None | ImportStandard | ImportViaMaterialDescription
  datatype AnimationType = NoAnimation | Legacy | Generic | Human
  datatype SkinWeights = Standard | Custom
  datatype AvatarSetup = NoAvatar | CreateFromThisModel | CopyFromOther

  /** An Avatar asset, identified by the path it was loaded from. */
  datatype Avatar = Avatar(assetPath: string)

  /** The ModelImporter settings the post-processor writes. */
  datatype ImportSettings = ImportSettings(
    importAnimation: bool,
    importCameras: bool,
    importLights: bool,
    materialImportMode: MaterialImportMode,
    animationType: AnimationType,
    skinWeights: SkinWeights,
    avatarSetup: AvatarSetup,
    sourceAvatar: Results.Option<Avatar>)

  /** The importer of one model: its asset path, whether the model has no
      import settings yet (a first import), and its settings. */
  datatype ModelImporter = ModelImporter(assetPath: string, importSettingsMissing: bool, settings: ImportSettings)

  /** Only models under the outfit folder are preprocessed. */
  predicate IsOutfitModel(assetPath: string) {
    StartsWith(assetPath, OutfitModelPath)
  }

  /** The settings every outfit model gets. `avatar` is what loading the base
      mesh's avatar returned; a failed load is only logged by the assertion,
      so the source avatar is then null. */
  function OutfitSettings(avatar: Results.Option<Avatar>): (r: ImportSettings)
    ensures !r.importAnimation && !r.importCameras && !r.importLights
    ensures r.materialImportMode == MaterialImportMode.None
    ensures r.animationType == Human && r.skinWeights == Standard
    ensures r.avatarSetup == CopyFromOther && r.sourceAvatar == avatar
  {
    ImportSettings(false, false, false, MaterialImportMode.None, Human, Standard, CopyFromOther, avatar)
  }

  /** OnPreprocessModel. `loadAvatar` stands for AssetDatabase.LoadAssetAtPath. */
  function OnPreprocessModel(importer: ModelImporter, loadAvatar: string -> Results.Option<Avatar>): (r: ModelImporter)
    ensures r.assetPath == importer.assetPath && r.importSettingsMissing == importer.importSettingsMissing
    ensures !IsOutfitModel(importer.assetPath) ==> r == importer
    ensures !importer.importSettingsMissing ==> r == importer
    ensures IsOutfitModel(importer.assetPath) && importer.importSettingsMissing ==>
      && !r.settings.importAnimation && !r.settings.importCameras && !r.settings.importLights
      && r.settings.materialImportMode == MaterialImportMode.None
      && r.settings.animationType == Human
      && r.settings.skinWeights == Standard
      && r.settings.avatarSetup == CopyFromOther
      && r.settings.sourceAvatar == loadAvatar(AvatarPath)
  {
    if IsOutfitModel(importer.assetPath) && importer.importSettingsMissing then
      importer.(settings := OutfitSettings(loadAvatar(AvatarPath)))
    else importer
  }

  /** Preprocessing a second time changes nothing more. */
  lemma PreprocessIdempotent(importer: ModelImporter, loadAvatar: string -> Results.Option<Avatar>)
    ensures OnPreprocessModel(OnPreprocessModel(importer, loadAvatar), loadAvatar)
            == OnPreprocessModel(importer, loadAvatar)
  {
  }

  /** The test OnPostprocessAllAssets makes on each imported path. */
  predicate IsOutfitAsset(assetPath: string) {
    Contains(assetPath, OutfitModelPath)
  }

  /** The scan of OnPostprocessAllAssets: the index of the first imported
      path that contains the outfit folder, or None. */
  method FirstOutfitAsset(importedAssets: seq<string>) returns (r: Results.Option<nat>)
    ensures r.Some? ==> r.value < |importedAssets| && IsOutfitAsset(importedAssets[r.value])
    ensures r.Some? ==> forall j :: 0 <= j < r.value ==> !IsOutfitAsset(importedAssets[j])
    ensures r.None? <==> forall j :: 0 <= j < |importedAssets| ==> !IsOutfitAsset(importedAssets[j])
  {
    var i := 0;
    while i < |importedAssets|
      invariant 0 <= i <= |importedAssets|
      invariant forall j :: 0 <= j < i ==> !IsOutfitAsset(importedAssets[j])
    {
      if IsOutfitAsset(importedAssets[i]) {
        return Results.Some(i);
      }
      i := i + 1;
    }
    return Results.None;
  }

  /** OnPostprocessAllAssets: the Outfit Creator window (in state `window`)
      is opened on the first imported outfit model only; later outfit models
      in the same batch are ignored. `loadFbx` stands for
      AssetDatabase.LoadAssetAtPath. */
  method OnPostprocessAllAssets(importedAssets: seq<string>, window: OutfitCreator.CreatorState,
                                loadFbx: string -> Results.Option<OutfitCreator.Fbx>)
    returns (first: Results.Option<nat>, r: OutfitCreator.CreatorState)
    ensures first.None? ==> r == window
    ensures first.None? <==> forall j :: 0 <= j < |importedAssets| ==> !IsOutfitAsset(importedAssets[j])
    ensures first.Some? ==>
      && first.value < |importedAssets|
      && IsOutfitAsset(importedAssets[first.value])
      && (forall j :: 0 <= j < first.value ==> !IsOutfitAsset(importedAssets[j]))
      && r == OutfitCreator.SetOutfitFbx(window, loadFbx(importedAssets[first.value]))
  {
    first := FirstOutfitAsset(importedAssets);
    if first.None? {
      return first, window;
    }
    r := OutfitCreator.SetOutfitFbx(window, loadFbx(importedAssets[first.value]));
  }

  /** Every model the preprocessor acts on also opens the window when it is
      the first of its batch, but a path that merely contains the outfit
      folder further in is not preprocessed. */
  lemma PreprocessedPathsArePostprocessed(assetPath: string)
    ensures IsOutfitModel(assetPath) ==> IsOutfitAsset(assetPath)
    ensures IsOutfitAsset("Backup/" + OutfitModelPath) && !IsOutfitModel("Backup/" + OutfitModelPath)
  {
    if IsOutfitModel(assetPath) {
      StartsWithImpliesContains(assetPath, OutfitModelPath);
    }
    var p := "Backup/" + OutfitModelPath;
    assert OccursAt(p, OutfitModelPath, 7);
    assert p[..|OutfitModelPath|][0] == 'B';
  }
}
