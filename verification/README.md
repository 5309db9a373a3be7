# Outfit Editor Sample — a Dafny model of the outfit tools

The Outfit Editor Sample is a Unity project. Its editor tools turn an imported
clothing FBX into clothing prefabs for a character. The prefabs are collected
in an `OutfitLibrary` asset that an object pool draws from at run time. This
project models the decision logic of those tools and proves properties of it:

- **Outfit Creator window.** It checks the form (`ValidateInput`,
  `IsRendererSelected`), names the new library and the prefabs, and splits the
  prefab folder at its last `/`. It composes asset paths (`GetAssetPath`) and
  reduces the folder dialog's absolute path to the part from `Assets` on.
  Pressing the button creates a library when asked, then saves one prefab per
  selected renderer. Each prefab is appended to the library in renderer order.
- **OutfitLibrary.** The record: the outfit name, the ordered prefab list, its
  `Count` and the `OnValidate` condition.
- **SkinnedMeshBoneMapper.** `TryMapBones` records the root bone's name and
  the names of the present bones, in order, and `Reset` runs it.
- **OutfitAssetImporter.** Only a model whose path starts with
  `Assets/Project/Models/Outfits` and that is imported for the first time gets
  the fixed import settings. After an import batch, the window opens on the
  first imported path that contains that folder.

Modules:

- `Results` (results.dfy) holds `Option`, and `Result` for the C# exceptions
  the code can raise.
- `Strings` (strings.dfy) holds the `System.String` operations the code uses.
- `Library` (outfit_library.dfy), `BoneMapping` (bone_mapper.dfy),
  `OutfitCreator` (outfit_creator.dfy) and `AssetImport` (asset_import.dfy)
  follow the source classes.

Unity's asset database is not modelled. The set of existing asset paths is
passed in and threaded through. `AssetDatabase.GenerateUniqueAssetPath` is an
uninterpreted parameter, `Uniquifier`. Each call sees the paths saved by
earlier calls. Where a property needs the uniquifier's promise (never
return a taken path), that promise is a hypothesis (`AlwaysFresh`).

Exceptions the source raises are `Throws` results:

- `Substring` with a negative index gives `ArgumentOutOfRange`.
- Reading the name of a null root bone gives `NullReference`.

Unity's `Assert` logs a message and continues, so a failed avatar or FBX load
yields a null (`None`) value rather than an error.

## Model

| member | source | states |
|---|---|---|
| Strings.Trim | Assets/Project/Scripts/Editor/Outfits/OutfitCreatorEditorWindow.cs:270 | `String.Trim`: the result is no longer than the input and has no white space at either end. It is empty exactly when the input is all white space. |
| Strings.TrimIsInfix | Assets/Project/Scripts/Editor/Outfits/OutfitCreatorEditorWindow.cs:270 | The trimmed string is a contiguous piece of the input with only white space before and after it. |
| Strings.TrimIdempotent | Assets/Project/Scripts/Editor/Outfits/OutfitCreatorEditorWindow.cs:270 | Trimming twice gives the same as trimming once. |
| Strings.LastIndexOf | Assets/Project/Scripts/Editor/Outfits/OutfitCreatorEditorWindow.cs:107 | `LastIndexOf` returns an index where the pattern occurs, with no occurrence after it. It returns none (C# -1) exactly when the pattern does not occur. |
| Strings.RemoveAll | Assets/Project/Scripts/Editor/Outfits/OutfitCreatorEditorWindow.cs:221 | `Replace("_", "")`: the result holds no `_` and is no longer than the input. |
| Strings.RemoveAllKeepsOthers | Assets/Project/Scripts/Editor/Outfits/OutfitCreatorEditorWindow.cs:221 | Every other character is in the result exactly when it is in the input. |
| Strings.RemoveAllDistributes | Assets/Project/Scripts/Editor/Outfits/OutfitCreatorEditorWindow.cs:221 | Removal works piece by piece over a concatenation, so the order of the remaining characters is kept. |
| Strings.RemoveAllAbsent | Assets/Project/Scripts/Editor/Outfits/OutfitCreatorEditorWindow.cs:221 | A string without `_` is left unchanged. |
| Library.OutfitLibrary.Count | Assets/Project/Scripts/Models/Outfits/OutfitLibrary.cs:10 | `Count` is the number of prefabs held, and it is zero exactly when the list is empty. |
| Library.OutfitLibrary.IsValid | Assets/Project/Scripts/Models/Outfits/OutfitLibrary.cs:16-19 | The `OnValidate` condition `!string.IsNullOrEmpty(_outfitName)`: the name is non-null and has at least one character. |
| Library.OutfitLibrary.Add | Assets/Project/Scripts/Models/Outfits/OutfitLibrary.cs:10-14 | `dataItems.Add`: `Count` grows by one, the old items stay in place, the new prefab is last, and the name is unchanged. |
| Library.OutfitLibrary.AddAll | Assets/Project/Scripts/Models/Outfits/OutfitLibrary.cs:10-14 | Adding a list of prefabs one after another appends exactly that list, in order, after the old items. |
| Library.AddAllAppends | Assets/Project/Scripts/Models/Outfits/OutfitLibrary.cs:14 | Adding a batch gives the library with the batch appended to its items and the same name. |
| Library.AddAllSplits | Assets/Project/Scripts/Models/Outfits/OutfitLibrary.cs:14 | Adding `a + b` equals adding `a` and then `b`. |
| Library.NewLibrary | Assets/Project/Scripts/Models/Outfits/OutfitLibrary.cs:13-18 | A freshly created library is empty and fails the `OnValidate` check, because its name is null. |
| Library.ValidityIsAboutTheName | Assets/Project/Scripts/Models/Outfits/OutfitLibrary.cs:16-19 | `OnValidate` passes exactly when the name is set and non-empty. A null name fails, and the items play no part. |
| BoneMapping.NewMapper | Assets/Project/Scripts/Outfits/SkinnedMeshBoneMapper.cs:8-9 | A new component has no root bone name and no bone names. |
| BoneMapping.PresentNames | Assets/Project/Scripts/Outfits/SkinnedMeshBoneMapper.cs:28-31 | The `Where(t => t != null).Select(t => t.name)` result is no longer than the bone array and includes the name of every present bone. |
| BoneMapping.PresentNamesDistributes | Assets/Project/Scripts/Outfits/SkinnedMeshBoneMapper.cs:28-31 | The filter works piece by piece over a concatenation, so the bones' order is kept. |
| BoneMapping.PresentNamesFromBones | Assets/Project/Scripts/Outfits/SkinnedMeshBoneMapper.cs:28-31 | Every recorded name is the name of some present bone. |
| BoneMapping.PresentNamesLength | Assets/Project/Scripts/Outfits/SkinnedMeshBoneMapper.cs:28-31 | There are as many names as bones minus null slots. There is one name per bone exactly when no slot is null. |
| BoneMapping.PresentNamesAllPresent | Assets/Project/Scripts/Outfits/SkinnedMeshBoneMapper.cs:28-31 | Without null slots, the names are the bones' names position by position. |
| BoneMapping.TryMapBones | Assets/Project/Scripts/Outfits/SkinnedMeshBoneMapper.cs:21-41 | With no renderer: returns false and leaves the component unchanged. It throws `NullReference` exactly when a renderer is attached but its root bone is null. Otherwise it succeeds, returns true, and records the root bone's name and the present bones' names. |
| BoneMapping.Reset | Assets/Project/Scripts/Outfits/SkinnedMeshBoneMapper.cs:11-15 | `Reset` gives the same component state and the same exception as `TryMapBones`, and drops the return value. |
| BoneMapping.MapTwiceIsMapOnce | Assets/Project/Scripts/Outfits/SkinnedMeshBoneMapper.cs:21-41 | Mapping again against the same renderer returns the same value and the same state. |
| OutfitCreator.IsRendererSelected | Assets/Project/Scripts/Editor/Outfits/OutfitCreatorEditorWindow.cs:327-346 | The scan returns `AnySelected`, the condition validation uses: true exactly when the selection array is non-null and some entry is true. |
| OutfitCreator.FirstInputError | Assets/Project/Scripts/Editor/Outfits/OutfitCreatorEditorWindow.cs:288-321 | The checks run in source order. Each error is reported exactly when its own check fails and every earlier check passed. |
| OutfitCreator.ValidateInput | Assets/Project/Scripts/Editor/Outfits/OutfitCreatorEditorWindow.cs:288-321 | The form is accepted exactly when: the trimmed folder is non-empty; in create mode the trimmed name is non-empty; in update mode a library is chosen; and some renderer is selected. |
| OutfitCreator.ApplyDefaultOutfitName | Assets/Project/Scripts/Editor/Outfits/OutfitCreatorEditorWindow.cs:125-128 | The name changes exactly in create mode with an empty name and an FBX set. It then becomes the FBX name followed by "Library", and nothing else changes. |
| OutfitCreator.LibraryFileName | Assets/Project/Scripts/Editor/Outfits/OutfitCreatorEditorWindow.cs:199 | The library file name always ends with "Library". It equals the outfit name exactly when that name already ends with "Library"; otherwise "Library" is appended. |
| OutfitCreator.LibraryFileNameIdempotent | Assets/Project/Scripts/Editor/Outfits/OutfitCreatorEditorWindow.cs:199 | Applying the naming rule twice gives the same as applying it once. |
| OutfitCreator.PrefabName | Assets/Project/Scripts/Editor/Outfits/OutfitCreatorEditorWindow.cs:221 | A prefab name is "prefab" followed by the renderer name with every `_` removed. It starts with "prefab" and contains no `_`. |
| OutfitCreator.SplitPrefabFolder | Assets/Project/Scripts/Editor/Outfits/OutfitCreatorEditorWindow.cs:209-211 | The split succeeds exactly when the folder contains a `/`; otherwise it throws `ArgumentOutOfRange`. The parent and the sub-folder concatenate back to the folder. The sub-folder starts with that `/` and contains no other `/`. |
| OutfitCreator.ComposeAssetPath | Assets/Project/Scripts/Editor/Outfits/OutfitCreatorEditorWindow.cs:270-278 | The asset path is `<parent>/<trimmed folder>/<name>.<extension>`. When the name and extension contain no `/`, the path's last `/` is the one right after the trimmed folder, so the file name is the last path component. |
| OutfitCreator.ComposeThenSplit | Assets/Project/Scripts/Editor/Outfits/OutfitCreatorEditorWindow.cs:270-278 | A composed asset path splits at its last `/` into the parent plus `/` plus the trimmed folder, and `/` plus name, `.` and extension. This holds when the name and extension contain no `/`. |
| OutfitCreator.GetAssetPath | Assets/Project/Scripts/Editor/Outfits/OutfitCreatorEditorWindow.cs:268-282 | The composed path is passed to the uniquifier. When the uniquifier keeps its promise, the returned path is not among the existing assets. |
| OutfitCreator.SplitOfJoin | Assets/Project/Scripts/Editor/Outfits/OutfitCreatorEditorWindow.cs:209-211 | Splitting a folder joined to a `/`-led file name (with no further `/`) gives back the two parts. |
| OutfitCreator.PrefabPathsDoubleTheSlash | Assets/Project/Scripts/Editor/Outfits/OutfitCreatorEditorWindow.cs:209-278 | The sub-folder keeps its leading `/`, so every prefab path requested for folder `P/S` starts with `P//`. |
| OutfitCreator.AssetsRelativeAsWritten | Assets/Project/Scripts/Editor/Outfits/OutfitCreatorEditorWindow.cs:107-108 | Reducing the dialog path succeeds exactly when it contains "Assets", and yields the suffix that starts at the last "Assets". Otherwise `Substring(-1)` throws `ArgumentOutOfRange`. |
| OutfitCreator.LastAssetsSuffix | Assets/Project/Scripts/Editor/Outfits/OutfitCreatorEditorWindow.cs:107-108 | Cutting at the last occurrence gives a suffix that starts with "Assets" and has no later "Assets". |
| OutfitCreator.CancelledDialogThrows | Assets/Project/Scripts/Editor/Outfits/OutfitCreatorEditorWindow.cs:104-108 | A cancelled dialog returns "". The code as written then throws instead of keeping the folder. |
| OutfitCreator.PickPrefabFolder | Assets/Project/Scripts/Editor/Outfits/OutfitCreatorEditorWindow.cs:104-109 | Corrected dialog handling: a path without "Assets" leaves the window unchanged. Otherwise the folder becomes the suffix from the last "Assets", as in the source, and nothing else changes. |
| OutfitCreator.CreateOutfitLibrary | Assets/Project/Scripts/Editor/Outfits/OutfitCreatorEditorWindow.cs:194-204 | The new library holds the trimmed outfit name and no items. It is saved under the unique path for `Assets/Project/Data/Outfits/<file name>.asset`, where the file name comes from the untrimmed outfit name. That path is then taken. |
| OutfitCreator.LibraryAssetPath | Assets/Project/Scripts/Editor/Outfits/OutfitCreatorEditorWindow.cs:200 | Composing the data folder, "Outfits" and the file name spells `Assets/Project/Data/Outfits/<file>.asset`. |
| OutfitCreator.ValidatedCreateIsValid | Assets/Project/Scripts/Editor/Outfits/OutfitCreatorEditorWindow.cs:194-197 | A library created after the form passed validation passes `OnValidate`. |
| OutfitCreator.SelectedIndices | Assets/Project/Scripts/Editor/Outfits/OutfitCreatorEditorWindow.cs:213-215 | The loop visits renderer indices below the renderer count whose entry is selected. |
| OutfitCreator.SelectedIndicesSpec | Assets/Project/Scripts/Editor/Outfits/OutfitCreatorEditorWindow.cs:213-215 | It visits those indices in strictly ascending order and misses none. |
| OutfitCreator.PrefabRequestsAt | Assets/Project/Scripts/Editor/Outfits/OutfitCreatorEditorWindow.cs:250 | The k-th requested path is the request for the k-th visited renderer. In the loop that is the composed path of its prefab (`PrefabRequester`). |
| OutfitCreator.SavedInOrderAt | Assets/Project/Scripts/Editor/Outfits/OutfitCreatorEditorWindow.cs:250-254 | The k-th saved prefab is saved under the path the uniquifier picks for the k-th request. That pick sees the existing assets plus the k prefabs saved before it. |
| OutfitCreator.SavedPathsAreFresh | Assets/Project/Scripts/Editor/Outfits/OutfitCreatorEditorWindow.cs:250-279 | With a uniquifier that keeps its promise, no saved prefab overwrites an existing asset, and no two prefabs of a run share a path. |
| OutfitCreator.SavedInOrderSnoc | Assets/Project/Scripts/Editor/Outfits/OutfitCreatorEditorWindow.cs:250-254 | Saving one more prefab extends a run, and its path joins the taken paths. |
| OutfitCreator.PrefabRequestsStep | Assets/Project/Scripts/Editor/Outfits/OutfitCreatorEditorWindow.cs:213-250 | Going on to the next renderer adds its request exactly when it is selected. |
| OutfitCreator.SaveStep | Assets/Project/Scripts/Editor/Outfits/OutfitCreatorEditorWindow.cs:213-261 | One loop iteration keeps the run invariant. A selected renderer adds its prefab, saved under a unique path; an unselected one changes nothing. |
| OutfitCreator.SaveRenderer | Assets/Project/Scripts/Editor/Outfits/OutfitCreatorEditorWindow.cs:215-254 | The loop body: the library keeps its name and old items and gains the prefab saved for renderer `i` when it is selected. |
| OutfitCreator.SavePrefabs | Assets/Project/Scripts/Editor/Outfits/OutfitCreatorEditorWindow.cs:213-261 | After the loop the library keeps its name and old items. It has gained exactly one prefab per selected renderer, in renderer order, each saved in turn under a unique path. The result is the library with those prefabs added as a batch, and every path is added to the taken paths. |
| OutfitCreator.CreateOutfitPrefabs | Assets/Project/Scripts/Editor/Outfits/OutfitCreatorEditorWindow.cs:206-266 | It throws `ArgumentOutOfRange` exactly when the folder has no `/`. Otherwise it behaves as the loop does, in the folder split at the last `/`. |
| OutfitCreator.TargetLibrary | Assets/Project/Scripts/Editor/Outfits/OutfitCreatorEditorWindow.cs:176-181 | In create mode the prefabs go to a new, empty library named with the trimmed outfit name, whose asset path is then taken. In update mode they go to the chosen library and no path is taken. |
| OutfitCreator.Submit | Assets/Project/Scripts/Editor/Outfits/OutfitCreatorEditorWindow.cs:167-181 | The button is rejected exactly when validation fails, with the first failing check. It crashes exactly when a valid form's folder has no `/`; the library created first then stays. Otherwise the target library keeps its name and items. It gains one prefab per selected renderer, in renderer order, each saved under the uniquifier's path for its request in the folder split at the last `/`. The taken paths grow by exactly the saved paths. |
| OutfitCreator.SetOutfitFbx | Assets/Project/Scripts/Editor/Outfits/OutfitCreatorEditorWindow.cs:43-48 | A null model changes nothing. A non-null model replaces the FBX and leaves every other field, including the selection array, as it was. |
| AssetImport.OutfitSettings | Assets/Project/Scripts/Editor/Outfits/OutfitAssetImporter.cs:30-43 | The settings every outfit model gets: no animation, cameras or lights; no materials; a Human rig; standard skin weights; and the avatar copied from the loaded base-mesh avatar. |
| AssetImport.OnPreprocessModel | Assets/Project/Scripts/Editor/Outfits/OutfitAssetImporter.cs:18-45 | A path outside the outfit folder, or a model imported before, is left unchanged. Otherwise it sets: no animation, cameras or lights; no materials; a Human rig; standard skin weights; and the avatar copied from the base mesh. The avatar may be null if loading failed. |
| AssetImport.PreprocessIdempotent | Assets/Project/Scripts/Editor/Outfits/OutfitAssetImporter.cs:18-45 | Preprocessing twice gives the same importer as preprocessing once. |
| AssetImport.FirstOutfitAsset | Assets/Project/Scripts/Editor/Outfits/OutfitAssetImporter.cs:49-54 | Returns the index of the first imported path that contains the outfit folder. It returns none exactly when no path contains it. |
| AssetImport.OnPostprocessAllAssets | Assets/Project/Scripts/Editor/Outfits/OutfitAssetImporter.cs:47-69 | A match is reported exactly when some imported path contains the outfit folder, and then it is the first such path. The window goes through `SetOutfitFbx` with what loading that path returned, so a load that returns null also leaves it unchanged. With no match the window is untouched. |
| AssetImport.PreprocessedPathsArePostprocessed | Assets/Project/Scripts/Editor/Outfits/OutfitAssetImporter.cs:20-54 | Every path the preprocessor acts on (`StartsWith`) also passes the post-processor's test (`Contains`). The reverse fails: `Backup/Assets/Project/Models/Outfits` passes `Contains` but not `StartsWith`. |

## Left out

- GUI: `OnGUI` layout, labels, help boxes, `FocusControl` and the error dialogs' texts. The second validation check reuses the prefab-folder message; only which check fails is modelled.
- `OpenOutfitCreationEditor`, `OnEnable`, `OnDisable` and the `SerializedObject`/`SerializedProperty` plumbing. The window is the `CreatorState` value.
- Allocating or resetting the selection array in `OnGUI`. `Submit` takes the array as given and requires it to be at least as long as the renderer list, as the GUI arranges.
- `AssetDatabase.IsValidFolder`/`CreateFolder`, `CreateAsset`, `SaveAssets`, `FocusProjectWindow` and `Selection`: asset-database side effects with no bearing on the paths or the library contents.
- `AssetDatabase.GenerateUniqueAssetPath` is an uninterpreted function parameter. Its freshness is a hypothesis, not modelled behaviour.
- Building the prefab: `Instantiate`, the skinned-mesh versus mesh-renderer branch, `AddComponent<SkinnedMeshBoneMapper>`, layers, the shared material and `DestroyImmediate`. None of it changes the path or the order of the library items. `PrefabUtility.SaveAsPrefabAsset` is taken to succeed, and a prefab is identified by its asset path.
- `SkinnedMeshBoneMapperEditor` and `Debug.Log` output.
- String comparisons (`StartsWith`, `EndsWith`, `Contains`, `LastIndexOf`) are ordinal. The source's culture-sensitive `StartsWith`/`EndsWith`/`LastIndexOf(string)` overloads are not modelled.
- Null strings: the window's string fields and renderer names are non-null. Only `OutfitLibrary._outfitName`, the bones and the root bone may be null.
- `AssetImport.OnPreprocessModel`: Unity's "assertions raise exceptions" setting is not modelled. A failed avatar load yields a null source avatar, as with the default setting.
- `OutfitCreator.Submit`: requires an FBX and a selection array, because the source only shows the button when a model with renderers is set.

Kept as the source behaves:

- Prefab paths contain `//`, because the sub-folder keeps its leading `/` (`PrefabPathsDoubleTheSlash`).
- The library's file name comes from the untrimmed outfit name, while the stored name is trimmed.
- A library created before `CreateOutfitPrefabs` throws stays created.
- `SetOutfitFbx` does not reset the selection array.

## Findings

| source | as written | input that shows it | evidently intended | confidence | as-written member | corrected member |
|---|---|---|---|---|---|---|
| Assets/Project/Scripts/Editor/Outfits/OutfitCreatorEditorWindow.cs:104-108 | The folder is cut at `folder.LastIndexOf("Assets")` with no check for -1. | A cancelled folder dialog returns `""`. `LastIndexOf` gives -1, and `Substring(-1)` throws `ArgumentOutOfRangeException`. A folder outside the project, such as `/home/u/Desktop`, does the same. | Leave the prefab folder unchanged when the chosen path has no `Assets` part. | medium (not executed) | OutfitCreator.AssetsRelativeAsWritten, OutfitCreator.CancelledDialogThrows | OutfitCreator.PickPrefabFolder |
