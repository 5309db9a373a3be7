/** The Outfit Creator editor window: the user picks an outfit FBX, a prefab
    folder, the renderers to convert and either a new outfit name or an
    existing library; the window then saves one prefab per selected renderer
    and appends them to the library. Only the window's decision logic is
    modelled: widgets, dialogs and scene objects are not. */
module OutfitCreator {
  import opened Results
  import opened Strings
  import opened Library

  /** Where new outfit libraries are saved (under its "Outfits" sub-folder). */
  const DataFolder := "Assets/Project/Data"

  /** An imported outfit model: its name and the names of its renderers, in
      the order GetComponentsInChildren returns them. */
  datatype Fbx = Fbx(name: string, rendererNames: seq<string>)

  /** The window's serialized fields. The prefab folder and outfit name are
      strings supplied by the editor's serializer; the FBX, the library and the
      selection array may be null. */
  datatype CreatorState = CreatorState(
    outfitFbx: Option<Fbx>,
    prefabFolder: string,
    outfitName: string,
    isCreateNewOutfit: bool,
    outfitLibrary: Option<OutfitLibrary>,
    selected: Option<seq<bool>>)

  /** The checks of ValidateInput, in the order it makes them. */
  datatype ValidationError =
    | MissingPrefabFolder
    | MissingOutfitName
    | MissingOutfitLibrary
    | NoRendererSelected

  /** AssetDatabase.GenerateUniqueAssetPath, which the model does not
      interpret: given the asset paths that exist and a requested path, it
      returns the path the asset is saved under. */
  type Uniquifier = (set<string>, string) -> string

  /** The uniquifier's documented promise: it never returns a taken path. */
  ghost predicate AlwaysFresh(unique: Uniquifier) {
    forall taken, path :: unique(taken, path) !in taken
  }

  // ---------------------------------------------------------------- validation

  /** Some entry of a non-null selection array is true. */
  predicate AnySelected(selected: Option<seq<bool>>) {
    selected.Some? && exists i | 0 <= i < |selected.value| :: selected.value[i]
  }

  /** IsRendererSelected: a linear scan that stops at the first selected entry. */
  method IsRendererSelected(selected: Option<seq<bool>>) returns (r: bool)
    ensures r == AnySelected(selected)
  {
    if selected.None? {
      return false;
    }
    var entries := selected.value;
    var i := 0;
    while i < |entries|
      invariant 0 <= i <= |entries|
      invariant forall j :: 0 <= j < i ==> !entries[j]
    {
      if entries[i] {
        return true;
      }
      i := i + 1;
    }
    return false;
  }

  /** The first check of ValidateInput that fails, or None when all pass. */
  function FirstInputError(s: CreatorState): (r: Option<ValidationError>)
    ensures r == Some(MissingPrefabFolder) <==> Trim(s.prefabFolder) == ""
    ensures r == Some(MissingOutfitName) <==>
      Trim(s.prefabFolder) != "" && s.isCreateNewOutfit && Trim(s.outfitName) == ""
    ensures r == Some(MissingOutfitLibrary) <==>
      Trim(s.prefabFolder) != "" && !s.isCreateNewOutfit && s.outfitLibrary.None?
    ensures r == Some(NoRendererSelected) <==>
      && Trim(s.prefabFolder) != ""
      && (if s.isCreateNewOutfit then Trim(s.outfitName) != "" else s.outfitLibrary.Some?)
      && !AnySelected(s.selected)
  {
    if Trim(s.prefabFolder) == "" then Some(MissingPrefabFolder)
    else if s.isCreateNewOutfit && Trim(s.outfitName) == "" then Some(MissingOutfitName)
    else if !s.isCreateNewOutfit && s.outfitLibrary.None? then Some(MissingOutfitLibrary)
    else if !AnySelected(s.selected) then Some(NoRendererSelected)
    else None
  }

  /** ValidateInput: the form is accepted exactly when every check passes. */
  function ValidateInput(s: CreatorState): (ok: bool)
    ensures ok <==>
      && Trim(s.prefabFolder) != ""
      && (s.isCreateNewOutfit ==> Trim(s.outfitName) != "")
      && (!s.isCreateNewOutfit ==> s.outfitLibrary.Some?)
      && (exists i :: s.selected.Some? && 0 <= i < |s.selected.value| && s.selected.value[i])
  {
    FirstInputError(s).None?
  }

  // ---------------------------------------------------------------- names

  /** The file name of a new library: the outfit name, with "Library"
      appended unless it already ends with it. */
  function LibraryFileName(outfitName: string): (r: string)
    ensures EndsWith(r, "Library")
    ensures r == outfitName <==> EndsWith(outfitName, "Library")
    ensures r != outfitName ==> r == outfitName + "Library"
  {
    if EndsWith(outfitName, "Library") then outfitName else outfitName + "Library"
  }

  lemma {:induction false} LibraryFileNameIdempotent(outfitName: string)
    ensures LibraryFileName(LibraryFileName(outfitName)) == LibraryFileName(outfitName)
  {
  }

  /** OnGUI's default for an empty outfit name in create mode: the FBX's
      name followed by "Library". */
  function ApplyDefaultOutfitName(s: CreatorState): (r: CreatorState)
    ensures r == s.(outfitName := r.outfitName)
    ensures r.outfitName != s.outfitName <==> s.isCreateNewOutfit && s.outfitName == "" && s.outfitFbx.Some?
    ensures r.outfitName != s.outfitName ==> r.outfitName == s.outfitFbx.value.name + "Library"
    ensures r.outfitName != s.outfitName ==> LibraryFileName(r.outfitName) == r.outfitName
  {
    if s.isCreateNewOutfit && s.outfitName == "" && s.outfitFbx.Some? then
      var name := s.outfitFbx.value.name + "Library";
      assert name[|name| - 7..] == "Library";
      s.(outfitName := name)
    else s
  }

  /** The prefab name for a renderer: "prefab" and the renderer's name, with
      every '_' removed. */
  function PrefabName(rendererName: string): (r: string)
    ensures r == "prefab" + RemoveAll(rendererName, '_')
    ensures StartsWith(r, "prefab") && '_' !in r
  {
    RemoveAllDistributes("prefab", rendererName, '_');
    RemoveAllAbsent("prefab", '_');
    RemoveAll("prefab" + rendererName, '_')
  }

  // ---------------------------------------------------------------- paths

  lemma {:induction false} SlashInIffContains(s: string)
    ensures '/' in s <==> Contains(s, "/")
  {
    if '/' in s {
      var i :| 0 <= i < |s| && s[i] == '/';
      assert OccursAt(s, "/", i);
    }
    if Contains(s, "/") {
      var i :| 0 <= i <= |s| - 1 && OccursAt(s, "/", i);
      assert s[i] == s[i..i + 1][0];
    }
  }

  /** The split of the prefab folder at its last '/': the parent folder
      before it and the sub-folder from the '/' on. A folder without '/'
      makes Substring(0, -1) throw. */
  function SplitPrefabFolder(folder: string): (r: Result<(string, string)>)
    ensures r.Ok? <==> '/' in folder
    ensures r.Throws? ==> r.error == ArgumentOutOfRange
    ensures r.Ok? ==> var (parent, sub) := r.value;
      && parent + sub == folder
      && sub != [] && sub[0] == '/'
      && '/' !in sub[1..]
  {
    SlashInIffContains(folder);
    match LastIndexOf(folder, "/")
    case None => Throws(ArgumentOutOfRange)
    case Some(i) =>
      var parent := folder[..i];
      var sub := folder[i..];
      assert parent + sub == folder;
      assert sub[0] == folder[i..i + 1][0];
      forall k | 1 <= k < |sub| ensures sub[k] != '/' {
        assert folder[i + k] == sub[k];
        assert !OccursAt(folder, "/", i + k);
        assert folder[i + k..i + k + 1] == [folder[i + k]];
      }
      Ok((parent, sub))
  }

  /** The path GetAssetPath asks the asset database to make unique: the
      parent folder, the trimmed folder and the file name, joined by '/'.
      When neither name nor extension holds a '/', the path's last '/' is the
      one right after the folder (ComposeThenSplit takes it apart there). */
  function ComposeAssetPath(parent: string, folder: string, name: string, extension: string): (r: string)
    ensures '/' !in name && '/' !in extension ==> LastSlashAt(r, |parent| + 1 + |Trim(folder)|)
  {
    var dir := parent + "/" + Trim(folder);
    var file := name + "." + extension;
    assert (dir + "/" + file)[|dir| + 1..] == file;
    dir + "/" + file
  }

  /** The last '/' of `path` is at index `i`. */
  predicate LastSlashAt(path: string, i: nat) {
    i < |path| && path[i] == '/' && '/' !in path[i + 1..]
  }

  /** GetAssetPath: the composed path, made unique against the existing assets. */
  function GetAssetPath(taken: set<string>, unique: Uniquifier, parent: string, folder: string,
                        name: string, extension: string): (r: string)
    ensures AlwaysFresh(unique) ==> r !in taken
  {
    unique(taken, ComposeAssetPath(parent, folder, name, extension))
  }

  /** Splitting a composed path at its last '/' gives back the folder and the
      file name, as long as neither name nor extension holds a '/'. */
  lemma {:induction false} ComposeThenSplit(parent: string, folder: string, name: string, extension: string)
    requires '/' !in name && '/' !in extension
    ensures SplitPrefabFolder(ComposeAssetPath(parent, folder, name, extension))
            == Ok((parent + "/" + Trim(folder), "/" + name + "." + extension))
  {
    var dir := parent + "/" + Trim(folder);
    var file := "/" + name + "." + extension;
    assert ComposeAssetPath(parent, folder, name, extension) == dir + file;
    assert file[1..] == name + "." + extension;
    SplitOfJoin(dir, file);
  }

  /** Joining a folder and a '/'-led file name without further '/' is undone
      by the split at the last '/'. */
  lemma {:induction false} SplitOfJoin(dir: string, file: string)
    requires file != [] && file[0] == '/' && '/' !in file[1..]
    ensures SplitPrefabFolder(dir + file) == Ok((dir, file))
  {
    var path := dir + file;
    assert path[|dir|] == '/';
    var (p, s) := SplitPrefabFolder(path).value;
    SplitIsUnique(path, dir, file, p, s);
  }

  /** Two ways of cutting a string just before a '/' after which no '/'
      follows are the same cut. */
  lemma {:induction false} SplitIsUnique(path: string, a: string, b: string, c: string, d: string)
    requires a + b == path && c + d == path
    requires b != [] && b[0] == '/' && '/' !in b[1..]
    requires d != [] && d[0] == '/' && '/' !in d[1..]
    ensures a == c && b == d
  {
    assert a == path[..|a|] && c == path[..|c|];
    assert b == path[|a|..] && d == path[|c|..];
  }

  /** The sub-folder keeps its leading '/', so every prefab path requested
      for a folder "P/S" starts with "P//". */
  lemma {:induction false} PrefabPathsDoubleTheSlash(folder: string, name: string)
    requires '/' in folder
    ensures var (parent, sub) := SplitPrefabFolder(folder).value;
      StartsWith(ComposeAssetPath(parent, sub, name, "prefab"), parent + "//")
  {
    var (parent, sub) := SplitPrefabFolder(folder).value;
    TrimKeepsFirst(sub);
    SlashAfterSlash(parent, Trim(sub), name + "." + "prefab");
  }

  lemma {:induction false} SlashAfterSlash(parent: string, t: string, rest: string)
    requires t != [] && t[0] == '/'
    ensures StartsWith(parent + "/" + t + "/" + rest, parent + "//")
  {
    var r := parent + "/" + t + "/" + rest;
    assert r[..|parent| + 2] == parent + "//";
  }

  // ---------------------------------------------------------------- folder dialog

  /** OnGUI's reduction of the folder dialog's absolute path to the part from
      the last "Assets" on, as written: without an "Assets" in the path,
      LastIndexOf returns -1 and Substring(-1) throws. */
  function AssetsRelativeAsWritten(folder: string): (r: Result<string>)
    ensures r.Ok? <==> Contains(folder, "Assets")
    ensures r.Throws? ==> r.error == ArgumentOutOfRange
    ensures r.Ok? ==> IsLastAssetsSuffix(folder, r.value)
  {
    match LastIndexOf(folder, "Assets")
    case None => Throws(ArgumentOutOfRange)
    case Some(i) => LastAssetsSuffix(folder, i); Ok(folder[i..])
  }

  /** `r` is the suffix of `folder` starting at its last "Assets". */
  ghost predicate IsLastAssetsSuffix(folder: string, r: string) {
    && |r| <= |folder| && r == folder[|folder| - |r|..]
    && StartsWith(r, "Assets")
    && forall j :: 0 < j ==> !OccursAt(r, "Assets", j)
  }

  lemma {:induction false} LastAssetsSuffix(folder: string, i: nat)
    requires OccursAt(folder, "Assets", i)
    requires forall j :: i < j ==> !OccursAt(folder, "Assets", j)
    ensures IsLastAssetsSuffix(folder, folder[i..])
  {
    var r := folder[i..];
    assert r[..6] == folder[i..i + 6];
    forall j | 0 < j ensures !OccursAt(r, "Assets", j) {
      OccursInSuffix(folder, i, j, "Assets");
    }
  }

  /** An occurrence inside a suffix is an occurrence in the whole string. */
  lemma {:induction false} OccursInSuffix(s: string, i: nat, j: nat, p: string)
    requires i <= |s|
    ensures OccursAt(s[i..], p, j) ==> OccursAt(s, p, i + j)
  {
    if OccursAt(s[i..], p, j) {
      assert s[i + j..i + j + |p|] == s[i..][j..j + |p|];
    }
  }

  /** OpenFolderPanel returns "" when the user cancels, and the as-written
      reduction then throws instead of leaving the folder alone. */
  lemma {:induction false} CancelledDialogThrows()
    ensures AssetsRelativeAsWritten("") == Throws(ArgumentOutOfRange)
  {
  }

  /** The folder-dialog result applied to the window, corrected: a path
      without "Assets" (a cancelled dialog, or a folder outside the project)
      leaves the prefab folder as it was. */
  function PickPrefabFolder(s: CreatorState, dialogResult: string): (r: CreatorState)
    ensures r == s.(prefabFolder := r.prefabFolder)
    ensures !Contains(dialogResult, "Assets") ==> r == s
    ensures Contains(dialogResult, "Assets") ==> IsLastAssetsSuffix(dialogResult, r.prefabFolder)
    ensures AssetsRelativeAsWritten(dialogResult).Ok? ==>
      r.prefabFolder == AssetsRelativeAsWritten(dialogResult).value
  {
    match AssetsRelativeAsWritten(dialogResult)
    case Ok(sub) => s.(prefabFolder := sub)
    case Throws(_) => s
  }

  // ---------------------------------------------------------------- creation

  /** CreateOutfitLibrary: a new library holding the trimmed outfit name,
      saved under Assets/Project/Data/Outfits with the untrimmed name plus
      "Library" as its file name. Returns the library, its asset path and the
      asset paths afterwards. */
  function CreateOutfitLibrary(outfitName: string, taken: set<string>, unique: Uniquifier)
    : (r: (OutfitLibrary, string, set<string>))
    ensures r.0.outfitName == Some(Trim(outfitName)) && r.0.Count() == 0
    ensures r.1 == unique(taken, "Assets/Project/Data/Outfits/" + LibraryFileName(outfitName) + ".asset")
    ensures r.2 == taken + {r.1}
  {
    var library := NewLibrary().(outfitName := Some(Trim(outfitName)));
    LibraryAssetPath(LibraryFileName(outfitName));
    var path := GetAssetPath(taken, unique, DataFolder, "Outfits", LibraryFileName(outfitName), "asset");
    (library, path, taken + {path})
  }

  /** New libraries go to the "Outfits" folder under the data folder. */
  lemma {:induction false} LibraryAssetPath(fileName: string)
    ensures ComposeAssetPath(DataFolder, "Outfits", fileName, "asset")
            == "Assets/Project/Data/Outfits/" + fileName + ".asset"
  {
    LibraryFolderSpelled(fileName);
    TrimNoWhiteSpaceEnds("Outfits");
  }

  lemma {:induction false} LibraryFolderSpelled(fileName: string)
    ensures DataFolder + "/" + "Outfits" + "/" + fileName + "." + "asset"
            == "Assets/Project/Data/Outfits/" + fileName + ".asset"
  {
  }

  /** A library created after the form passed validation is valid. */
  lemma {:induction false} ValidatedCreateIsValid(s: CreatorState, taken: set<string>, unique: Uniquifier)
    requires ValidateInput(s) && s.isCreateNewOutfit
    ensures CreateOutfitLibrary(s.outfitName, taken, unique).0.IsValid()
  {
  }

  /** The indices `i < n` whose entry is selected, in ascending order. */
  function SelectedIndices(selected: seq<bool>, n: nat): (r: seq<nat>)
    requires n <= |selected|
    ensures |r| <= n
    ensures forall k :: 0 <= k < |r| ==> r[k] < n && selected[r[k]]
  {
    if n == 0 then []
    else SelectedIndices(selected, n - 1) + (if selected[n - 1] then [n - 1] else [])
  }

  /** The selected indices are exactly the selected entries below `n`, each
      once and in ascending order. */
  lemma {:induction false} SelectedIndicesSpec(selected: seq<bool>, n: nat)
    requires n <= |selected|
    ensures var idx := SelectedIndices(selected, n);
      && (forall j, k :: 0 <= j < k < |idx| ==> idx[j] < idx[k])
      && (forall i :: 0 <= i < n && selected[i] ==> i in idx)
  {
    if n > 0 {
      SelectedIndicesSpec(selected, n - 1);
    }
  }

  /** The asset paths of a list of prefabs. */
  function PathsOf(items: seq<Prefab>): (r: set<string>)
    ensures forall k :: 0 <= k < |items| ==> items[k].assetPath in r
  {
    if items == [] then {}
    else PathsOf(items[..|items| - 1]) + {items[|items| - 1].assetPath}
  }

  /** The path requested for a renderer's prefab in folder `parent` + "/" + `sub`. */
  function PrefabRequest(parent: string, sub: string, rendererName: string): string {
    ComposeAssetPath(parent, sub, PrefabName(rendererName), "prefab")
  }

  /** The path a save asks for, given the renderer's name. */
  type Requester = string -> string

  /** The requester of the loop of CreateOutfitPrefabs. */
  function PrefabRequester(parent: string, sub: string): Requester {
    rendererName => PrefabRequest(parent, sub, rendererName)
  }

  /** The path requested for each of the renderers `idx` names, in order. */
  function PrefabRequests(request: Requester, names: seq<string>, idx: seq<nat>): (r: seq<string>)
    requires forall k :: 0 <= k < |idx| ==> idx[k] < |names|
    ensures |r| == |idx|
  {
    if idx == [] then []
    else
      var n := |idx| - 1;
      PrefabRequests(request, names, idx[..n]) + [request(names[idx[n]])]
  }

  /** The k-th request is the one for the k-th listed renderer. */
  lemma {:induction false} PrefabRequestsAt(request: Requester, names: seq<string>, idx: seq<nat>, k: nat)
    requires forall j :: 0 <= j < |idx| ==> idx[j] < |names|
    requires k < |idx|
    ensures PrefabRequests(request, names, idx)[k] == request(names[idx[k]])
  {
    var n := |idx| - 1;
    if k < n {
      PrefabRequestsAt(request, names, idx[..n], k);
    }
  }

  /** `added` is what saving the `requests` one after another produces: each
      is saved under the path the uniquifier returns given everything that
      existed before it, including the prefabs saved earlier in the run. */
  ghost predicate SavedInOrder(taken: set<string>, unique: Uniquifier, requests: seq<string>, added: seq<Prefab>)
    decreases |requests|
  {
    && |added| == |requests|
    && (requests != [] ==>
          var n := |requests| - 1;
          && SavedInOrder(taken, unique, requests[..n], added[..n])
          && added[n].assetPath == unique(taken + PathsOf(added[..n]), requests[n]))
  }

  /** Read position by position: the k-th saved prefab got the path the
      uniquifier chose for the k-th request given the assets that existed
      and the k prefabs saved before it. */
  lemma {:induction false} SavedInOrderAt(taken: set<string>, unique: Uniquifier, requests: seq<string>,
                                          added: seq<Prefab>, k: nat)
    requires SavedInOrder(taken, unique, requests, added) && k < |added|
    ensures added[k].assetPath == unique(taken + PathsOf(added[..k]), requests[k])
  {
    var n := |requests| - 1;
    if k < n {
      SavedInOrderAt(taken, unique, requests[..n], added[..n], k);
      assert added[..n][..k] == added[..k];
    }
  }

  /** With a uniquifier that keeps its promise, a run saves every prefab
      under a new, distinct path. */
  lemma {:induction false} SavedPathsAreFresh(taken: set<string>, unique: Uniquifier, requests: seq<string>, added: seq<Prefab>)
    requires AlwaysFresh(unique) && SavedInOrder(taken, unique, requests, added)
    ensures forall k :: 0 <= k < |added| ==> added[k].assetPath !in taken
    ensures forall j, k :: 0 <= j < k < |added| ==> added[j].assetPath != added[k].assetPath
  {
    forall k | 0 <= k < |added|
      ensures added[k].assetPath !in taken + PathsOf(added[..k])
    {
      SavedInOrderAt(taken, unique, requests, added, k);
    }
    forall j, k | 0 <= j < k < |added|
      ensures added[j].assetPath != added[k].assetPath
    {
      assert added[..k][j] == added[j];
    }
  }

  /** Saving one more request extends a run. */
  lemma {:induction false} SavedInOrderSnoc(taken: set<string>, unique: Uniquifier, requests: seq<string>, added: seq<Prefab>,
                         request: string)
    requires SavedInOrder(taken, unique, requests, added)
    ensures var prefab := Prefab(unique(taken + PathsOf(added), request));
      && SavedInOrder(taken, unique, requests + [request], added + [prefab])
      && PathsOf(added + [prefab]) == PathsOf(added) + {prefab.assetPath}
  {
    var prefab := Prefab(unique(taken + PathsOf(added), request));
    assert (requests + [request])[..|requests|] == requests;
    assert (added + [prefab])[..|added|] == added;
  }

  /** One more renderer index adds its request when it is selected. */
  lemma {:induction false} PrefabRequestsStep(request: Requester, names: seq<string>, selected: seq<bool>, i: nat)
    requires i < |names| <= |selected|
    ensures PrefabRequests(request, names, SelectedIndices(selected, i + 1))
         == PrefabRequests(request, names, SelectedIndices(selected, i))
            + (if selected[i] then [request(names[i])] else [])
  {
    var before := SelectedIndices(selected, i);
    var after := SelectedIndices(selected, i + 1);
    if selected[i] {
      assert after == before + [i];
      assert after[..|before|] == before;
    } else {
      assert after == before;
    }
  }

  /** What the loop of CreateOutfitPrefabs has done after the first `i`
      renderers: `added` are the prefabs saved for the selected ones. */
  ghost predicate SavedUpTo(request: Requester, rendererNames: seq<string>, selected: seq<bool>,
                            taken: set<string>, unique: Uniquifier, i: nat, added: seq<Prefab>, taken': set<string>)
    requires i <= |rendererNames| <= |selected|
  {
    && SavedInOrder(taken, unique, PrefabRequests(request, rendererNames, SelectedIndices(selected, i)), added)
    && taken' == taken + PathsOf(added)
  }

  /** One iteration of the loop keeps SavedUpTo. */
  lemma {:induction false} SaveStep(request: Requester, rendererNames: seq<string>, selected: seq<bool>,
                                    taken: set<string>, unique: Uniquifier, i: nat, added: seq<Prefab>, taken': set<string>)
    requires i < |rendererNames| <= |selected|
    requires SavedUpTo(request, rendererNames, selected, taken, unique, i, added, taken')
    ensures !selected[i] ==> SavedUpTo(request, rendererNames, selected, taken, unique, i + 1, added, taken')
    ensures selected[i] ==>
      var prefab := Prefab(unique(taken', request(rendererNames[i])));
      SavedUpTo(request, rendererNames, selected, taken, unique, i + 1, added + [prefab], taken' + {prefab.assetPath})
  {
    var before := PrefabRequests(request, rendererNames, SelectedIndices(selected, i));
    var after := PrefabRequests(request, rendererNames, SelectedIndices(selected, i + 1));
    PrefabRequestsStep(request, rendererNames, selected, i);
    if selected[i] {
      assert after == before + [request(rendererNames[i])];
      SavedInOrderSnoc(taken, unique, before, added, request(rendererNames[i]));
    } else {
      assert after == before;
    }
  }

  /** One pass of the loop of CreateOutfitPrefabs: when renderer `i` is
      selected, save its prefab under the path the uniquifier picks and add
      it to the library; otherwise change nothing. */
  method SaveRenderer(parent: string, sub: string, rendererNames: seq<string>, selected: seq<bool>,
                      taken: set<string>, unique: Uniquifier, i: nat,
                      library: OutfitLibrary, ghost added: seq<Prefab>, current: OutfitLibrary, taken': set<string>)
    returns (next: OutfitLibrary, taken'': set<string>, ghost added': seq<Prefab>)
    requires i < |rendererNames| <= |selected|
    requires current.outfitName == library.outfitName && current.dataItems == library.dataItems + added
    requires SavedUpTo(PrefabRequester(parent, sub), rendererNames, selected, taken, unique, i, added, taken')
    ensures next.outfitName == library.outfitName && next.dataItems == library.dataItems + added'
    ensures SavedUpTo(PrefabRequester(parent, sub), rendererNames, selected, taken, unique, i + 1, added', taken'')
  {
    SaveStep(PrefabRequester(parent, sub), rendererNames, selected, taken, unique, i, added, taken');
    next, taken'', added' := current, taken', added;
    if selected[i] {
      var prefabName := PrefabName(rendererNames[i]);
      var assetPath := GetAssetPath(taken', unique, parent, sub, prefabName, "prefab");
      assert assetPath == unique(taken', PrefabRequester(parent, sub)(rendererNames[i]));
      var prefab := Prefab(assetPath);
      next := current.Add(prefab);
      added' := added + [prefab];
      taken'' := taken' + {assetPath};
      assert next.dataItems == library.dataItems + added';
    }
  }

  /** The loop of CreateOutfitPrefabs: for each selected renderer, in index
      order, save a prefab in folder `parent` + "/" + `sub` and add it to the
      library. */
  method SavePrefabs(parent: string, sub: string, rendererNames: seq<string>, selected: seq<bool>,
                     library: OutfitLibrary, taken: set<string>, unique: Uniquifier)
    returns (after: OutfitLibrary, taken': set<string>)
    requires |rendererNames| <= |selected|
    ensures var idx := SelectedIndices(selected, |rendererNames|);
      && after.outfitName == library.outfitName
      && after.Count() == library.Count() + |idx|
      && library.dataItems <= after.dataItems
      && SavedInOrder(taken, unique, PrefabRequests(PrefabRequester(parent, sub), rendererNames, idx),
                      after.dataItems[library.Count()..])
      && taken' == taken + PathsOf(after.dataItems[library.Count()..])
      && after == library.AddAll(after.dataItems[library.Count()..])
  {
    after := library;
    taken' := taken;
    ghost var added: seq<Prefab> := [];
    var i := 0;
    while i < |rendererNames|
      invariant 0 <= i <= |rendererNames|
      invariant after.outfitName == library.outfitName
      invariant after.dataItems == library.dataItems + added
      invariant SavedUpTo(PrefabRequester(parent, sub), rendererNames, selected, taken, unique, i, added, taken')
    {
      after, taken', added := SaveRenderer(parent, sub, rendererNames, selected, taken, unique, i,
                                           library, added, after, taken');
      i := i + 1;
    }
    assert after.dataItems[library.Count()..] == added;
    AddAllAppends(library, added);
  }

  /** CreateOutfitPrefabs: split the prefab folder at its last '/', then save
      the selected renderers' prefabs into it. Throws when the folder has no
      '/'. */
  method CreateOutfitPrefabs(prefabFolder: string, rendererNames: seq<string>, selected: seq<bool>,
                             library: OutfitLibrary, taken: set<string>, unique: Uniquifier)
    returns (r: Result<(OutfitLibrary, set<string>)>)
    requires |rendererNames| <= |selected|
    ensures r.Ok? <==> '/' in prefabFolder
    ensures r.Throws? ==> r.error == ArgumentOutOfRange
    ensures r.Ok? ==>
      var (parent, sub) := SplitPrefabFolder(prefabFolder).value;
      var idx := SelectedIndices(selected, |rendererNames|);
      var (after, taken') := r.value;
      && after.outfitName == library.outfitName
      && after.Count() == library.Count() + |idx|
      && library.dataItems <= after.dataItems
      && SavedInOrder(taken, unique, PrefabRequests(PrefabRequester(parent, sub), rendererNames, idx),
                      after.dataItems[library.Count()..])
      && taken' == taken + PathsOf(after.dataItems[library.Count()..])
  {
    var split := SplitPrefabFolder(prefabFolder);
    if split.Throws? {
      return Throws(split.error);
    }
    var (parent, sub) := split.value;
    var after, taken' := SavePrefabs(parent, sub, rendererNames, selected, library, taken, unique);
    return Ok((after, taken'));
  }

  // ---------------------------------------------------------------- the button

  /** What pressing "Create Outfit" / "Update Outfit" leads to. */
  datatype SubmitOutcome =
    | Rejected(error: ValidationError)
      // CreateOutfitPrefabs threw; a library created first stays created.
    | Crashed(state: CreatorState, taken: set<string>)
    | Completed(state: CreatorState, taken: set<string>)

  /** The library the prefabs are appended to: a new one in create mode,
      otherwise the selected one. */
  function TargetLibrary(s: CreatorState, taken: set<string>, unique: Uniquifier): (r: (OutfitLibrary, set<string>))
    requires s.isCreateNewOutfit || s.outfitLibrary.Some?
    ensures s.isCreateNewOutfit ==>
      var path := unique(taken, "Assets/Project/Data/Outfits/" + LibraryFileName(s.outfitName) + ".asset");
      && r.0.outfitName == Some(Trim(s.outfitName)) && r.0.Count() == 0
      && r.1 == taken + {path}
    ensures !s.isCreateNewOutfit ==> r.0 == s.outfitLibrary.value && r.1 == taken
  {
    if s.isCreateNewOutfit then
      var (library, _, taken') := CreateOutfitLibrary(s.outfitName, taken, unique);
      (library, taken')
    else (s.outfitLibrary.value, taken)
  }

  /** The button handler in OnGUI: validate, create the library in create
      mode, then create the prefabs. Reaching the button needs an FBX and a
      selection array at least as long as its renderer list. */
  method Submit(s: CreatorState, taken: set<string>, unique: Uniquifier) returns (r: SubmitOutcome)
    requires s.outfitFbx.Some? && s.selected.Some?
    requires |s.outfitFbx.value.rendererNames| <= |s.selected.value|
    ensures r.Rejected? <==> !ValidateInput(s)
    ensures r.Rejected? ==> FirstInputError(s) == Some(r.error)
    ensures r.Crashed? <==> ValidateInput(s) && '/' !in s.prefabFolder
    ensures !r.Rejected? ==>
      var (library, taken') := TargetLibrary(s, taken, unique);
      && r.state == s.(outfitLibrary := r.state.outfitLibrary)
      && r.state.outfitLibrary.Some?
      && r.state.outfitLibrary.value.outfitName == library.outfitName
      && library.dataItems <= r.state.outfitLibrary.value.dataItems
      && (r.Crashed? ==> r.state.outfitLibrary.value == library && r.taken == taken')
      && (r.Completed? ==>
            var (parent, sub) := SplitPrefabFolder(s.prefabFolder).value;
            var idx := SelectedIndices(s.selected.value, |s.outfitFbx.value.rendererNames|);
            var added := r.state.outfitLibrary.value.dataItems[library.Count()..];
            && r.state.outfitLibrary.value.Count() == library.Count() + |idx|
            && SavedInOrder(taken', unique, PrefabRequests(PrefabRequester(parent, sub), s.outfitFbx.value.rendererNames, idx), added)
            && r.taken == taken' + PathsOf(added))
  {
    var error := FirstInputError(s);
    if error.Some? {
      return Rejected(error.value);
    }
    var (library, taken') := TargetLibrary(s, taken, unique);
    var state := s.(outfitLibrary := Some(library));
    var created := CreateOutfitPrefabs(s.prefabFolder, s.outfitFbx.value.rendererNames, s.selected.value,
                                       library, taken', unique);
    if created.Throws? {
      return Crashed(state, taken');
    }
    var (library', taken'') := created.value;
    return Completed(state.(outfitLibrary := Some(library')), taken'');
  }

  /** SetOutfitFbx: a non-null model replaces the window's FBX; the
      selection array is left as it was. */
  function SetOutfitFbx(s: CreatorState, fbx: Option<Fbx>): (r: CreatorState)
    ensures fbx.None? ==> r == s
    ensures fbx.Some? ==> r.outfitFbx == fbx && r == s.(outfitFbx := fbx)
  {
    if fbx.Some? then s.(outfitFbx := fbx) else s
  }
}
