/**
 * The 3D preview of a ghost model (GhostbusterQuest/GhostModelPreviewView.swift):
 * how a model id is turned into a resource of the app bundle, the list of
 * animation options offered once a model has loaded, which animation a
 * "hit" plays, and the coordinator's change detection between updates.
 * The bundle is the set of resources it contains; RealityKit entities are
 * reduced to their scale and the names of their animations; the
 * asynchronous load is a pending request that a later call delivers.
 */
module ModelPreview {

  import opened Common

  // ---------------------------------------------------------------------
  // Resolving a model id to a bundle resource
  // ---------------------------------------------------------------------

  /** A resource of the app bundle: file name without extension, extension, and subdirectory (none = top level). */
  datatype Resource = Resource(name: string, ext: string, subdir: Option<string>)

  /** `modelID.replacingOccurrences(of: "\\", with: "/")`. */
  function NormalizeSlashes(s: string): (r: string)
    ensures |r| == |s|
    ensures forall i :: 0 <= i < |r| ==> r[i] != '\\'
    ensures forall i :: 0 <= i < |r| && s[i] != '\\' ==> r[i] == s[i]
    ensures forall i :: 0 <= i < |r| && s[i] == '\\' ==> r[i] == '/'
  {
    seq(|s|, i requires 0 <= i < |s| => if s[i] == '\\' then '/' else s[i])
  }

  /** What `resolveModelURL` reads off a model id. */
  datatype ModelPath = ModelPath(name: string, ext: Option<string>, subdirectory: Option<string>)

  /** The file name and the subdirectory of a normalised path. */
  function SplitPath(path: string): (string, Option<string>)
  {
    var parts := Components(path, '/');
    var fileName := LastComponentOr(path, '/');
    var subdirectory := if |parts| > 1 then Some(Join(parts[..|parts| - 1], '/')) else None;
    (fileName, subdirectory)
  }

  /** The split of a file name at its last '.' into name and extension. */
  function SplitName(fileName: string): (string, Option<string>)
  {
    match LastIndexOf(fileName, '.')
    case None => (fileName, None)
    case Some(dot) => (fileName[..dot], Some(fileName[dot + 1..]))
  }

  function ParseModelID(modelID: string): ModelPath
  {
    var (fileName, subdirectory) := SplitPath(NormalizeSlashes(modelID));
    var (name, ext) := SplitName(fileName);
    ModelPath(name, ext, subdirectory)
  }

  /**
   * The path is read after replacing backslashes: the file name is the last
   * non-empty '/'-component (or the whole path when there is none), and a
   * subdirectory exists exactly when there are at least two components, as
   * the components before the last joined with '/'.
   */
  lemma SplitPathSpec(path: string)
    ensures var (fileName, subdirectory) := SplitPath(path); var parts := Components(path, '/');
      fileName == LastComponentOr(path, '/') &&
      (subdirectory.Some? <==> |parts| >= 2) &&
      (subdirectory.Some? ==> subdirectory.value == Join(parts[..|parts| - 1], '/')) &&
      (|parts| == 0 <==> AllSeparators(path, '/'))
  {
    ComponentsEmpty(path, '/');
  }

  /**
   * The name and extension put back together around a '.' give the file
   * name, and the extension has no '.'; without a '.' there is no extension
   * and the name is the file name.
   */
  lemma SplitNameRoundTrip(fileName: string)
    ensures var (name, ext) := SplitName(fileName);
      (ext.Some? ==> name + "." + ext.value == fileName && forall i :: 0 <= i < |ext.value| ==> ext.value[i] != '.') &&
      (ext.None? ==> name == fileName && forall i :: 0 <= i < |fileName| ==> fileName[i] != '.')
  {
    match LastIndexOf(fileName, '.')
    case None =>
    case Some(dot) =>
      assert fileName[..dot] + "." + fileName[dot + 1..] == fileName;
  }

  /** `extensionsToTry`: the given extension alone, or "usdc" then "usdz". */
  function ExtensionsToTry(ext: Option<string>): seq<string>
  {
    match ext
    case Some(e) => [e]
    case None => ["usdc", "usdz"]
  }

  /** `subdirsToTry`: the model's subdirectory, if any, then "Ghost". */
  function SubdirsToTry(subdirectory: Option<string>): seq<string>
  {
    (if subdirectory.Some? then [subdirectory.value] else []) + ["Ghost"]
  }

  /** The look-up made before the subdirectory loop, when the model has a subdirectory. */
  function SubdirectoryFirst(name: string, ext: string, subdirectory: Option<string>): seq<Resource>
  {
    if subdirectory.Some? then [Resource(name, ext, subdirectory)] else []
  }

  function SubdirLookups(name: string, ext: string, subdirs: seq<string>): seq<Resource>
  {
    seq(|subdirs|, k requires 0 <= k < |subdirs| => Resource(name, ext, Some(subdirs[k])))
  }

  /** The look-ups made for one extension, in order: subdirectory, the subdirectory list, top level. */
  function ExtLookups(name: string, ext: string, subdirectory: Option<string>): seq<Resource>
  {
    SubdirectoryFirst(name, ext, subdirectory) + SubdirLookups(name, ext, SubdirsToTry(subdirectory)) + [Resource(name, ext, None)]
  }

  /** The look-ups made for a list of extensions, the extension loop being outermost. */
  function Lookups(name: string, exts: seq<string>, subdirectory: Option<string>): seq<Resource>
  {
    if |exts| == 0 then []
    else Lookups(name, exts[..|exts| - 1], subdirectory) + ExtLookups(name, exts[|exts| - 1], subdirectory)
  }

  /** Every bundle look-up `resolveModelURL` makes for a model id, in order. */
  function Candidates(modelID: string): seq<Resource>
  {
    var path := ParseModelID(modelID);
    Lookups(path.name, ExtensionsToTry(path.ext), path.subdirectory)
  }

  /** The first candidate present in the bundle. */
  function FirstExisting(bundle: set<Resource>, candidates: seq<Resource>): (r: Option<Resource>)
    ensures r.None? <==> forall k :: 0 <= k < |candidates| ==> candidates[k] !in bundle
    ensures r.Some? ==> r.value in bundle && r.value in candidates
  {
    if |candidates| == 0 then None
    else if candidates[0] in bundle then Some(candidates[0])
    else FirstExisting(bundle, candidates[1..])
  }

  /** Searching two lists one after the other: the second is consulted only when the first has no hit. */
  lemma {:induction false} FirstExistingConcat(bundle: set<Resource>, p: seq<Resource>, q: seq<Resource>)
    ensures FirstExisting(bundle, p + q) == if FirstExisting(bundle, p).Some? then FirstExisting(bundle, p) else FirstExisting(bundle, q)
  {
    if |p| > 0 {
      assert (p + q)[1..] == p[1..] + q;
      FirstExistingConcat(bundle, p[1..], q);
    } else {
      assert p + q == q;
    }
  }

  /** The first look-up that succeeds is the one returned, if all earlier ones failed. */
  lemma {:induction false} FirstExistingAt(bundle: set<Resource>, tried: seq<Resource>, hit: Resource, candidates: seq<Resource>)
    requires tried + [hit] <= candidates
    requires forall k :: 0 <= k < |tried| ==> tried[k] !in bundle
    requires hit in bundle
    ensures FirstExisting(bundle, candidates) == Some(hit)
  {
    if |tried| == 0 {
      assert candidates[0] == hit;
    } else {
      assert tried[1..] + [hit] <= candidates[1..];
      FirstExistingAt(bundle, tried[1..], hit, candidates[1..]);
    }
  }

  lemma {:induction false} LookupsPrefix(name: string, exts: seq<string>, subdirectory: Option<string>, k: nat)
    requires k <= |exts|
    ensures Lookups(name, exts[..k], subdirectory) <= Lookups(name, exts, subdirectory)
  {
    if k < |exts| {
      var n := |exts| - 1;
      assert exts[..n][..k] == exts[..k];
      LookupsPrefix(name, exts[..n], subdirectory, k);
    } else {
      assert exts[..k] == exts;
    }
  }

  lemma LookupsStep(name: string, exts: seq<string>, subdirectory: Option<string>, i: nat)
    requires i < |exts|
    ensures Lookups(name, exts[..i + 1], subdirectory) == Lookups(name, exts[..i], subdirectory) + ExtLookups(name, exts[i], subdirectory)
    ensures Lookups(name, exts[..i + 1], subdirectory) <= Lookups(name, exts, subdirectory)
  {
    assert exts[..i + 1][..i] == exts[..i];
    LookupsPrefix(name, exts, subdirectory, i + 1);
  }

  /** A hit found in a prefix of the candidates is the hit for all of them. */
  lemma FirstExistingPrefix(bundle: set<Resource>, p: seq<Resource>, candidates: seq<Resource>)
    requires p <= candidates && FirstExisting(bundle, p).Some?
    ensures FirstExisting(bundle, candidates) == FirstExisting(bundle, p)
  {
    assert candidates == p + candidates[|p|..];
    FirstExistingConcat(bundle, p, candidates[|p|..]);
  }

  /** The body of the extension loop of `resolveModelURL` for one extension. */
  method TryExtension(bundle: set<Resource>, name: string, fileExt: string, subdirectory: Option<string>)
    returns (url: Option<Resource>)
    ensures url == FirstExisting(bundle, ExtLookups(name, fileExt, subdirectory))
  {
    var subdirsToTry := SubdirsToTry(subdirectory);
    ghost var round := ExtLookups(name, fileExt, subdirectory);
    ghost var tried: seq<Resource> := [];
    if subdirectory.Some? {
      var candidate := Resource(name, fileExt, subdirectory);
      assert tried + [candidate] == round[..1];
      if candidate in bundle {
        FirstExistingAt(bundle, tried, candidate, round);
        return Some(candidate);
      }
      tried := tried + [candidate];
    }
    var j := 0;
    while j < |subdirsToTry|
      invariant 0 <= j <= |subdirsToTry|
      invariant tried == SubdirectoryFirst(name, fileExt, subdirectory) + SubdirLookups(name, fileExt, subdirsToTry)[..j]
      invariant forall k :: 0 <= k < |tried| ==> tried[k] !in bundle
    {
      var candidate := Resource(name, fileExt, Some(subdirsToTry[j]));
      assert tried + [candidate] == round[..|tried| + 1];
      if candidate in bundle {
        FirstExistingAt(bundle, tried, candidate, round);
        return Some(candidate);
      }
      tried := tried + [candidate];
      j := j + 1;
    }
    var candidate := Resource(name, fileExt, None);
    assert SubdirLookups(name, fileExt, subdirsToTry)[..j] == SubdirLookups(name, fileExt, subdirsToTry);
    assert tried + [candidate] == round;
    if candidate in bundle {
      FirstExistingAt(bundle, tried, candidate, round);
      return Some(candidate);
    }
    tried := tried + [candidate];
    return None;
  }

  /**
   * `resolveModelURL(modelID:)`: for each extension to try, look in the
   * model's subdirectory, then in each directory of the subdirectory list,
   * then at the top level; return the first resource found.
   */
  method ResolveModelURL(bundle: set<Resource>, modelID: string) returns (url: Option<Resource>)
    ensures url == FirstExisting(bundle, Candidates(modelID))
  {
    var path := ParseModelID(modelID);
    var name, subdirectory := path.name, path.subdirectory;
    var extensionsToTry := ExtensionsToTry(path.ext);
    var i := 0;
    while i < |extensionsToTry|
      invariant 0 <= i <= |extensionsToTry|
      invariant FirstExisting(bundle, Lookups(name, extensionsToTry[..i], subdirectory)).None?
    {
      LookupsStep(name, extensionsToTry, subdirectory, i);
      FirstExistingConcat(bundle, Lookups(name, extensionsToTry[..i], subdirectory), ExtLookups(name, extensionsToTry[i], subdirectory));
      url := TryExtension(bundle, name, extensionsToTry[i], subdirectory);
      if url.Some? {
        FirstExistingPrefix(bundle, Lookups(name, extensionsToTry[..i + 1], subdirectory), Candidates(modelID));
        return;
      }
      i := i + 1;
    }
    assert extensionsToTry[..i] == extensionsToTry;
    return None;
  }

  /** The resource found for one extension: subdirectory first, then "Ghost", then top level. */
  function FirstForExtension(bundle: set<Resource>, name: string, ext: string, subdirectory: Option<string>): Option<Resource>
  {
    if subdirectory.Some? && Resource(name, ext, subdirectory) in bundle then Some(Resource(name, ext, subdirectory))
    else if Resource(name, ext, Some("Ghost")) in bundle then Some(Resource(name, ext, Some("Ghost")))
    else if Resource(name, ext, None) in bundle then Some(Resource(name, ext, None))
    else None
  }

  lemma ExtLookupsOrder(bundle: set<Resource>, name: string, ext: string, subdirectory: Option<string>)
    ensures FirstExisting(bundle, ExtLookups(name, ext, subdirectory)) == FirstForExtension(bundle, name, ext, subdirectory)
  {
    var first := SubdirectoryFirst(name, ext, subdirectory);
    var middle := SubdirLookups(name, ext, SubdirsToTry(subdirectory));
    var last := [Resource(name, ext, None)];
    FirstExistingConcat(bundle, first + middle, last);
    FirstExistingConcat(bundle, first, middle);
    if subdirectory.Some? {
      assert middle == [Resource(name, ext, subdirectory), Resource(name, ext, Some("Ghost"))];
      assert middle[1..] == [Resource(name, ext, Some("Ghost"))];
    } else {
      assert middle == [Resource(name, ext, Some("Ghost"))];
    }
  }

  /**
   * The lookup order of `resolveModelURL`: with an extension in the model
   * id only that extension is tried, in the order subdirectory, "Ghost",
   * top level; without one, "usdc" is tried in all three places before
   * "usdz" is tried anywhere, so a usdc file at the top level wins over a
   * usdz file in the model's own subdirectory. The result is `None` exactly
   * when no candidate exists.
   */
  lemma ResolveOrder(bundle: set<Resource>, modelID: string)
    ensures var path := ParseModelID(modelID);
      path.ext.Some? ==>
        FirstExisting(bundle, Candidates(modelID)) == FirstForExtension(bundle, path.name, path.ext.value, path.subdirectory)
    ensures var path := ParseModelID(modelID);
      var usdc := FirstForExtension(bundle, path.name, "usdc", path.subdirectory);
      path.ext.None? ==>
        FirstExisting(bundle, Candidates(modelID)) == if usdc.Some? then usdc else FirstForExtension(bundle, path.name, "usdz", path.subdirectory)
  {
    var path := ParseModelID(modelID);
    var exts := ExtensionsToTry(path.ext);
    if path.ext.Some? {
      assert Lookups(path.name, exts, path.subdirectory) == ExtLookups(path.name, exts[0], path.subdirectory);
      ExtLookupsOrder(bundle, path.name, exts[0], path.subdirectory);
    } else {
      var a := ExtLookups(path.name, "usdc", path.subdirectory);
      var b := ExtLookups(path.name, "usdz", path.subdirectory);
      assert exts[..1] == ["usdc"];
      assert exts[..1][..0] == [];
      assert Lookups(path.name, exts[..1], path.subdirectory) == a;
      assert Lookups(path.name, exts, path.subdirectory) == a + b;
      FirstExistingConcat(bundle, a, b);
      ExtLookupsOrder(bundle, path.name, "usdc", path.subdirectory);
      ExtLookupsOrder(bundle, path.name, "usdz", path.subdirectory);
    }
  }

  // ---------------------------------------------------------------------
  // Animation options and the hit animation
  // ---------------------------------------------------------------------

  /** `GhostModelAnimationOption`. */
  datatype AnimationOption = AnimationOption(id: string, title: string)

  /** The option for the animation at position `i`; an animation without a name has the empty name. */
  function OptionFor(i: nat, name: string): AnimationOption
  {
    if |name| == 0 then AnimationOption("index:" + NatToString(i), "Animation " + NatToString(i + 1))
    else AnimationOption(name, name)
  }

  /** The option list built when a model has loaded: one option per animation, in order. */
  function Options(names: seq<string>): (options: seq<AnimationOption>)
    ensures |options| == |names|
  {
    seq(|names|, i requires 0 <= i < |names| => OptionFor(i, names[i]))
  }

  const IndexPrefix: string := "index:"

  predicate HasIndexPrefix(s: string)
  {
    |s| >= |IndexPrefix| && s[..|IndexPrefix|] == IndexPrefix
  }

  /** The position an "index:N" selection names, when N is a valid position. */
  function IndexSelection(s: string, count: nat): (r: Option<nat>)
    ensures r.Some? ==> r.value < count && HasIndexPrefix(s)
  {
    if !HasIndexPrefix(s) then None
    else
      match ParseInt(s[|IndexPrefix|..])
      case Some(k) => if 0 <= k < count then Some(k as nat) else None
      case None => None
  }

  /** ASCII lower-casing. */
  function LowerAscii(c: char): char
  {
    if 'A' <= c <= 'Z' then (c as int + 32) as char else c
  }

  /** The name contains "hit" in any letter case. */
  predicate ContainsHit(name: string)
  {
    exists i :: 0 <= i && i + 3 <= |name| &&
      LowerAscii(name[i]) == 'h' && LowerAscii(name[i + 1]) == 'i' && LowerAscii(name[i + 2]) == 't'
  }

  /**
   * The animation `playHit` plays, once there are animations: the one an
   * "index:N" selection names, else the first whose name is the selection,
   * else the first whose name contains "hit", else the first.
   */
  function ChooseHit(names: seq<string>, selected: Option<string>): (i: nat)
    requires |names| > 0
    ensures i < |names|
    ensures selected.Some? && selected.value != "" && IndexSelection(selected.value, |names|).Some? ==>
      i == IndexSelection(selected.value, |names|).value
    ensures (selected.Some? && selected.value != "" && IndexSelection(selected.value, |names|).None? &&
             exists j :: 0 <= j < |names| && names[j] == selected.value) ==>
      names[i] == selected.value && forall j :: 0 <= j < i ==> names[j] != selected.value
    ensures (selected.None? || selected.value == "" ||
        (IndexSelection(selected.value, |names|).None? && forall j :: 0 <= j < |names| ==> names[j] != selected.value)) ==>
      (forall j :: 0 <= j < i ==> !ContainsHit(names[j])) &&
      (ContainsHit(names[i]) || (i == 0 && forall j :: 0 <= j < |names| ==> !ContainsHit(names[j])))
  {
    var byIndex := if selected.Some? && selected.value != "" then IndexSelection(selected.value, |names|) else None;
    var byName := if selected.Some? && selected.value != "" then FirstIndex(names, (n: string) => n == selected.value) else None;
    if byIndex.Some? then byIndex.value
    else if byName.Some? then byName.value
    else
      match FirstIndex(names, (n: string) => ContainsHit(n))
      case Some(j) => j
      case None => 0
  }

  /**
   * Choosing an option from the list makes a hit play that option's
   * animation: an unnamed animation is played by its position, a named one
   * by the first animation of that name (unless the name itself reads
   * "index:N" for a valid N, which the selection rule takes as a position).
   */
  lemma OptionPlaysItsAnimation(names: seq<string>, i: nat)
    requires i < |names|
    requires |names[i]| > 0 ==> IndexSelection(names[i], |names|).None?
    ensures var chosen := ChooseHit(names, Some(Options(names)[i].id));
      names[chosen] == names[i] && (|names[i]| == 0 ==> chosen == i)
  {
    var id := Options(names)[i].id;
    if |names[i]| == 0 {
      ParseIntRoundTrip(i);
      assert id[..|IndexPrefix|] == IndexPrefix;
      assert id[|IndexPrefix|..] == NatToString(i);
      assert IndexSelection(id, |names|) == Some(i);
    } else {
      assert id == names[i];
    }
  }

  /**
   * Options at different positions have different ids, provided no name
   * reads like "index:…" and the two names differ or are both empty.
   */
  lemma OptionIdsDistinct(names: seq<string>, i: nat, j: nat)
    requires i < j < |names|
    requires names[i] != names[j] || names[i] == names[j] == ""
    requires forall k :: 0 <= k < |names| ==> !HasIndexPrefix(names[k])
    ensures Options(names)[i].id != Options(names)[j].id
  {
    var a, b := Options(names)[i].id, Options(names)[j].id;
    if |names[i]| == 0 && |names[j]| == 0 {
      ParseIntRoundTrip(i);
      ParseIntRoundTrip(j);
      assert a[|IndexPrefix|..] == NatToString(i);
      assert b[|IndexPrefix|..] == NatToString(j);
    } else if |names[i]| == 0 {
      assert a[..|IndexPrefix|] == IndexPrefix;
    } else if |names[j]| == 0 {
      assert b[..|IndexPrefix|] == IndexPrefix;
    }
  }

  // ---------------------------------------------------------------------
  // The coordinator
  // ---------------------------------------------------------------------

  /** The loaded model entity: its uniform scale and the names of its animations. */
  datatype Entity = Entity(scale: real, animations: seq<string>)

  /** A load in flight: the resource being loaded and the scale captured when it started. */
  datatype PendingLoad = PendingLoad(url: Resource, scale: real)

  /** The preview's `Coordinator`. */
  class Coordinator {
    var lastModelID: Option<string>
    var lastScale: Option<real>
    var lastPlayHitTrigger: int
    var modelEntity: Option<Entity>
    var animations: seq<string>
    var animationOptions: seq<AnimationOption>
    var pending: Option<PendingLoad>
    /** Every list passed to `onAnimationsChanged`, oldest first. */
    var reported: seq<seq<AnimationOption>>

    /** The options always describe the animations, which belong to the loaded entity; no entity while a load is in flight. */
    predicate Valid()
      reads this
    {
      animationOptions == Options(animations) &&
      (modelEntity.None? ==> animations == []) &&
      (modelEntity.Some? ==> animations == modelEntity.value.animations) &&
      (pending.Some? ==> modelEntity.None?)
    }

    constructor ()
      ensures Valid()
      ensures lastModelID.None? && lastScale.None? && lastPlayHitTrigger == 0
      ensures modelEntity.None? && pending.None? && reported == []
    {
      lastModelID := None;
      lastScale := None;
      lastPlayHitTrigger := 0;
      modelEntity := None;
      animations := [];
      animationOptions := [];
      pending := None;
      reported := [];
    }

    /**
     * `load(modelID:scale:onAnimationsChanged:)`: forget the current model
     * and any load in flight, record the id and scale, report an empty
     * option list, and start loading the resolved resource, if any.
     */
    method Load(bundle: set<Resource>, modelID: string, scale: real)
      requires Valid()
      modifies this
      ensures Valid()
      ensures lastModelID == Some(modelID) && lastScale == Some(scale)
      ensures lastPlayHitTrigger == old(lastPlayHitTrigger)
      ensures modelEntity.None? && animations == [] && animationOptions == []
      ensures reported == old(reported) + [[]]
      ensures pending == match FirstExisting(bundle, Candidates(modelID))
        case None => None
        case Some(url) => Some(PendingLoad(url, scale))
    {
      pending := None;
      lastModelID := Some(modelID);
      lastScale := Some(scale);
      modelEntity := None;
      animations := [];
      animationOptions := [];
      reported := reported + [[]];
      var url := ResolveModelURL(bundle, modelID);
      if url.None? {
        return;
      }
      pending := Some(PendingLoad(url.value, scale));
    }

    /**
     * The load's value arrives: the entity takes the scale captured when the
     * load started, its animations and their options replace the old ones,
     * and the options are reported.
     */
    method Deliver(animationNames: seq<string>)
      requires Valid() && pending.Some?
      modifies this
      ensures Valid()
      ensures modelEntity == Some(Entity(old(pending).value.scale, animationNames))
      ensures animationOptions == Options(animationNames)
      ensures reported == old(reported) + [Options(animationNames)]
      ensures pending.None?
      ensures lastModelID == old(lastModelID) && lastScale == old(lastScale) && lastPlayHitTrigger == old(lastPlayHitTrigger)
    {
      modelEntity := Some(Entity(pending.value.scale, animationNames));
      animations := animationNames;
      animationOptions := Options(animationNames);
      reported := reported + [animationOptions];
      pending := None;
    }

    /** The load fails: the request is dropped and nothing else changes. */
    method Fail()
      requires Valid() && pending.Some?
      modifies this
      ensures Valid()
      ensures pending.None?
      ensures modelEntity == old(modelEntity) && animations == old(animations) && reported == old(reported)
      ensures lastModelID == old(lastModelID) && lastScale == old(lastScale) && lastPlayHitTrigger == old(lastPlayHitTrigger)
    {
      pending := None;
    }

    /** `playHit(selectedHitAnimationID:)`: the position of the animation played, if any. */
    method PlayHit(selected: Option<string>) returns (played: Option<nat>)
      requires Valid()
      ensures modelEntity.None? || animations == [] ==> played.None?
      ensures modelEntity.Some? && animations != [] ==> played == Some(ChooseHit(animations, selected))
    {
      if modelEntity.None? || animations == [] {
        return None;
      }
      played := Some(ChooseHit(animations, selected));
    }

    /**
     * `update(...)`: reload when the model id changed, else rescale when
     * the scale changed; then play a hit when the trigger changed.
     */
    method Update(bundle: set<Resource>, modelID: string, scale: real, selected: Option<string>, trigger: int)
      returns (played: Option<nat>)
      requires Valid()
      modifies this
      ensures Valid()
      ensures old(lastModelID) != Some(modelID) ==>
        lastModelID == Some(modelID) && lastScale == Some(scale) && modelEntity.None? && animations == [] &&
        reported == old(reported) + [[]] &&
        pending == (match FirstExisting(bundle, Candidates(modelID)) case None => None case Some(url) => Some(PendingLoad(url, scale)))
      ensures old(lastModelID) == Some(modelID) && old(lastScale) != Some(scale) ==>
        lastModelID == old(lastModelID) && lastScale == Some(scale) &&
        modelEntity == (if old(modelEntity).Some? then Some(old(modelEntity).value.(scale := scale)) else None) &&
        animations == old(animations) && pending == old(pending) && reported == old(reported)
      ensures old(lastModelID) == Some(modelID) && old(lastScale) == Some(scale) ==>
        lastModelID == old(lastModelID) && lastScale == old(lastScale) && modelEntity == old(modelEntity) &&
        animations == old(animations) && pending == old(pending) && reported == old(reported)
      ensures trigger != old(lastPlayHitTrigger) ==>
        lastPlayHitTrigger == trigger &&
        played == (if modelEntity.None? || animations == [] then None else Some(ChooseHit(animations, selected)))
      ensures trigger == old(lastPlayHitTrigger) ==> lastPlayHitTrigger == trigger && played.None?
    {
      if lastModelID != Some(modelID) {
        Load(bundle, modelID, scale);
      } else if lastScale != Some(scale) {
        if modelEntity.Some? {
          modelEntity := Some(modelEntity.value.(scale := scale));
        }
        lastScale := Some(scale);
      }
      played := None;
      if trigger != lastPlayHitTrigger {
        lastPlayHitTrigger := trigger;
        played := PlayHit(selected);
      }
    }
  }
}
