/**
 * The per-area image store and the application state around it.  The store
 * maps an area name to the ordered list of its renderings; every update builds
 * a new map (App.tsx:264-271, 377-380, 410-413, 421-429).  The state
 * transitions of the handlers are functions from the old state and the
 * outcome of the foreign calls to the new state (App.tsx:155-169, 227-280,
 * 377-382, 410-413, 421-429).
 */
module Store {
  import opened Text
  import opened Wrappers
  import opened Types
  import opened Customize

  type Gallery = map<string, seq<GeneratedImage>>

  /** The renderings of an area, `prev[name] || []`. */
  function ImagesOf(g: Gallery, name: string): seq<GeneratedImage> {
    if name in g then g[name] else []
  }

  // ---------------------------------------------------------------------------
  // Appending a rendering

  /** A new rendering goes at the end of its area's list. */
  function AddImage(g: Gallery, name: string, image: GeneratedImage): (r: Gallery)
    ensures name in r && r[name] == ImagesOf(g, name) + [image]
    ensures r.Keys == g.Keys + {name}
    ensures forall other | other in g && other != name :: r[other] == g[other]
  {
    g[name := ImagesOf(g, name) + [image]]
  }

  // ---------------------------------------------------------------------------
  // Deleting a rendering

  /** `images.filter(img => img.id !== id)`. */
  function WithoutId(images: seq<GeneratedImage>, id: string): (r: seq<GeneratedImage>)
    ensures |r| <= |images|
    ensures forall x | x in r :: x in images && x.id != id
  {
    if images == [] then []
    else if images[0].id == id then WithoutId(images[1..], id)
    else [images[0]] + WithoutId(images[1..], id)
  }

  /** Every rendering with another id is kept, as often as it was there, and
      none with the id. */
  lemma {:induction false} WithoutIdCounts(images: seq<GeneratedImage>, id: string, x: GeneratedImage)
    ensures multiset(WithoutId(images, id))[x] == if x.id == id then 0 else multiset(images)[x]
  {
    if images != [] {
      WithoutIdCounts(images[1..], id, x);
      assert images == [images[0]] + images[1..];
    }
  }

  /** Filtering distributes over concatenation: the kept renderings stay in
      their order. */
  lemma {:induction false} WithoutIdAppend(a: seq<GeneratedImage>, b: seq<GeneratedImage>, id: string)
    ensures WithoutId(a + b, id) == WithoutId(a, id) + WithoutId(b, id)
  {
    if a == [] {
      assert a + b == b;
    } else {
      assert (a + b)[1..] == a[1..] + b;
      WithoutIdAppend(a[1..], b, id);
    }
  }

  /** A list without the id is left as it is. */
  lemma {:induction false} WithoutIdAbsent(images: seq<GeneratedImage>, id: string)
    requires forall x | x in images :: x.id != id
    ensures WithoutId(images, id) == images
  {
    if images != [] {
      WithoutIdAbsent(images[1..], id);
      assert [images[0]] + images[1..] == images;
    }
  }

  /** Deleting twice is deleting once. */
  lemma WithoutIdIdempotent(images: seq<GeneratedImage>, id: string)
    ensures WithoutId(WithoutId(images, id), id) == WithoutId(images, id)
  {
    WithoutIdAbsent(WithoutId(images, id), id);
  }

  /** Deleting a rendering: the area's list loses exactly the renderings with
      that id; the area is present afterwards even if it was not before. */
  function DeleteImage(g: Gallery, name: string, id: string): (r: Gallery)
    ensures name in r && r[name] == WithoutId(ImagesOf(g, name), id)
    ensures r.Keys == g.Keys + {name}
    ensures forall other | other in g && other != name :: r[other] == g[other]
  {
    g[name := WithoutId(ImagesOf(g, name), id)]
  }

  /** Deleting a rendering just added under a fresh id restores the store. */
  lemma DeleteAfterAdd(g: Gallery, name: string, image: GeneratedImage)
    requires name in g
    requires forall x | x in g[name] :: x.id != image.id
    ensures DeleteImage(AddImage(g, name, image), name, image.id) == g
  {
    WithoutIdAppend(g[name], [image], image.id);
    WithoutIdAbsent(g[name], image.id);
    assert WithoutId([image], image.id) == [];
    assert g[name] + [] == g[name];
  }

  // ---------------------------------------------------------------------------
  // The first renderings of a new plan

  /** The first exterior whose lower-cased name contains `word` (`find`). */
  function FindExterior(areas: seq<Area>, word: string): (r: Option<Area>)
    ensures r.Some? ==> r.value in areas && r.value.kind == Exterior && Occurs(LowerStr(r.value.name), word)
    ensures r.None? <==> forall a | a in areas :: !(a.kind == Exterior && Occurs(LowerStr(a.name), word))
  {
    if areas == [] then None
    else if areas[0].kind == Exterior && Occurs(LowerStr(areas[0].name), word) then Some(areas[0])
    else FindExterior(areas[1..], word)
  }

  /** The found area is the first match: no area before it matches. */
  lemma {:induction false} FindExteriorFirst(areas: seq<Area>, word: string)
    requires FindExterior(areas, word).Some?
    ensures exists i :: (0 <= i < |areas| && areas[i] == FindExterior(areas, word).value
      && forall j | 0 <= j < i :: !(areas[j].kind == Exterior && Occurs(LowerStr(areas[j].name), word)))
  {
    if !(areas[0].kind == Exterior && Occurs(LowerStr(areas[0].name), word)) {
      FindExteriorFirst(areas[1..], word);
      var i :| 0 <= i < |areas[1..]| && areas[1..][i] == FindExterior(areas[1..], word).value
        && forall j | 0 <= j < i :: !(areas[1..][j].kind == Exterior && Occurs(LowerStr(areas[1..][j].name), word));
      FindExteriorShift(areas, word, i);
    } else {
      assert areas[0] == FindExterior(areas, word).value;
    }
  }

  /** A first match in the rest of the areas, after a first area that does not
      match, is the first match of them all, one place further. */
  lemma FindExteriorShift(areas: seq<Area>, word: string, i: nat)
    requires areas != [] && !(areas[0].kind == Exterior && Occurs(LowerStr(areas[0].name), word))
    requires i < |areas[1..]| && FindExterior(areas[1..], word).Some?
    requires areas[1..][i] == FindExterior(areas[1..], word).value
    requires forall j | 0 <= j < i :: !(areas[1..][j].kind == Exterior && Occurs(LowerStr(areas[1..][j].name), word))
    ensures areas[i + 1] == FindExterior(areas, word).value
    ensures forall j | 0 <= j < i + 1 :: !(areas[j].kind == Exterior && Occurs(LowerStr(areas[j].name), word))
  {
    forall j | 0 <= j < i + 1
      ensures !(areas[j].kind == Exterior && Occurs(LowerStr(areas[j].name), word))
    {
      if j > 0 {
        assert areas[j] == areas[1..][j - 1];
      }
    }
  }

  function Present(a: Option<Area>): seq<Area> {
    if a.Some? then [a.value] else []
  }

  /** The front exterior, then the back exterior, each when there is one. */
  function AreasToRender(plan: HousePlan): (r: seq<Area>)
    ensures |r| <= 2
    ensures forall a | a in r :: a in plan.areas && a.kind == Exterior
  {
    Present(FindExterior(plan.areas, "front")) + Present(FindExterior(plan.areas, "back"))
  }

  /** One exterior named both front and back is rendered twice. */
  lemma FrontAndBackRenderedTwice(a: Area)
    requires a.kind == Exterior && Occurs(LowerStr(a.name), "front") && Occurs(LowerStr(a.name), "back")
    ensures AreasToRender(HousePlan("", "", [a])) == [a, a]
  {
  }

  /** The outcome of one initial rendering: the area name and its image, or
      nothing when that rendering failed. */
  type RenderResult = Option<(string, GeneratedImage)>

  /** The store that `results.forEach` builds: every successful rendering's
      area gets a one-image list, a later result for the same area replacing
      an earlier one. */
  function Merged(results: seq<RenderResult>): (g: Gallery)
    ensures forall name | name in g :: |g[name]| == 1
  {
    if results == [] then map[]
    else
      var g := Merged(results[..|results| - 1]);
      match results[|results| - 1]
      case None => g
      case Some(r) => g[r.0 := [r.1]]
  }

  /** An area is in the merged store exactly when some result names it. */
  lemma {:induction false} MergedKeys(results: seq<RenderResult>, name: string)
    ensures name in Merged(results) <==>
      exists i :: 0 <= i < |results| && results[i].Some? && results[i].value.0 == name
  {
    if results != [] {
      var init := results[..|results| - 1];
      MergedKeys(init, name);
      if exists i :: 0 <= i < |init| && init[i].Some? && init[i].value.0 == name {
        var i :| 0 <= i < |init| && init[i].Some? && init[i].value.0 == name;
        assert results[i] == init[i];
      }
      if exists i :: 0 <= i < |results| && results[i].Some? && results[i].value.0 == name {
        var i :| 0 <= i < |results| && results[i].Some? && results[i].value.0 == name;
        if i < |init| {
          assert init[i] == results[i];
        }
      }
    }
  }

  /** The image kept for an area is the one of the last result naming it. */
  lemma {:induction false} MergedLast(results: seq<RenderResult>, i: nat)
    requires i < |results| && results[i].Some?
    requires forall j | i < j < |results| :: results[j].None? || results[j].value.0 != results[i].value.0
    ensures results[i].value.0 in Merged(results)
    ensures Merged(results)[results[i].value.0] == [results[i].value.1]
    decreases |results|
  {
    var init := results[..|results| - 1];
    if i < |init| {
      assert init[i] == results[i];
      forall j | i < j < |init|
        ensures init[j].None? || init[j].value.0 != init[i].value.0
      {
        assert init[j] == results[j];
      }
      MergedLast(init, i);
    }
  }

  /** The merge as the handler performs it, one result after another. */
  method MergeRenders(results: seq<RenderResult>) returns (newImages: Gallery)
    ensures newImages == Merged(results)
  {
    newImages := map[];
    var k := 0;
    while k < |results|
      invariant 0 <= k <= |results|
      invariant newImages == Merged(results[..k])
    {
      assert results[..k + 1][..k] == results[..k];
      var result := results[k];
      if result.Some? {
        newImages := newImages[result.value.0 := [result.value.1]];
      }
      k := k + 1;
    }
    assert results[..k] == results;
  }

  // ---------------------------------------------------------------------------
  // The application state and its transitions

  /** An uploaded plan file: its MIME type and its data. */
  datatype PlanFile = PlanFile(mimeType: string, data: string)

  datatype AppState = AppState(
    plan: Option<HousePlan>,
    images: Gallery,
    selected: Option<Area>,
    customizations: Customizations,
    error: Option<string>,
    planFile: Option<PlanFile>)

  const Initial: AppState := AppState(None, map[], None, [], None, None)

  /** Selecting an area clears the customizations. */
  function SelectArea(s: AppState, area: Area): (r: AppState)
    ensures r.selected == Some(area) && r.customizations == []
    ensures r.plan == s.plan && r.images == s.images && r.error == s.error && r.planFile == s.planFile
  {
    s.(selected := Some(area), customizations := [])
  }

  /** Restarting, when confirmed, forgets the plan, the renderings, the
      selection, the customizations, the error and the plan file. */
  function Restart(s: AppState, confirmed: bool): (r: AppState)
    ensures confirmed ==> r == Initial
    ensures !confirmed ==> r == s
  {
    if confirmed then AppState(None, map[], None, [], None, None) else s
  }

  /** The error an initial rendering of the area `name` leaves when it fails. */
  function InitialRenderError(name: string): string {
    "Could not generate an initial image for " + name + ". You can try generating it manually."
  }

  /** The results of `Promise.all` over the areas to render: the area's name
      and its image where its rendering succeeded, `null` where it failed. */
  function RenderResults(areas: seq<Area>, outcomes: seq<Option<GeneratedImage>>): (r: seq<RenderResult>)
    requires |outcomes| == |areas|
    ensures |r| == |areas|
    ensures forall i | 0 <= i < |r| :: r[i].Some? <==> outcomes[i].Some?
    ensures forall i | 0 <= i < |r| && r[i].Some? :: r[i].value == (areas[i].name, outcomes[i].value)
  {
    seq(|areas|, i requires 0 <= i < |areas| =>
      if outcomes[i].Some? then Some((areas[i].name, outcomes[i].value)) else None)
  }

  /** The names of the areas whose rendering failed, in the order of the areas. */
  function FailedNames(areas: seq<Area>, outcomes: seq<Option<GeneratedImage>>): seq<string>
    requires |outcomes| == |areas|
  {
    if areas == [] then []
    else (if outcomes[0].None? then [areas[0].name] else []) + FailedNames(areas[1..], outcomes[1..])
  }

  /** No name fails exactly when every rendering succeeded; every failed name
      is the name of an area whose rendering failed. */
  lemma {:induction false} FailedNamesExact(areas: seq<Area>, outcomes: seq<Option<GeneratedImage>>)
    requires |outcomes| == |areas|
    ensures FailedNames(areas, outcomes) == [] <==> forall i | 0 <= i < |outcomes| :: outcomes[i].Some?
    ensures forall x | x in FailedNames(areas, outcomes) ::
      exists i | 0 <= i < |areas| :: outcomes[i].None? && areas[i].name == x
  {
    if areas != [] {
      FailedNamesExact(areas[1..], outcomes[1..]);
      var rest := FailedNames(areas[1..], outcomes[1..]);
      if forall i | 0 <= i < |outcomes| :: outcomes[i].Some? {
        forall i | 0 <= i < |outcomes[1..]| ensures outcomes[1..][i].Some? {
          assert outcomes[1..][i] == outcomes[i + 1];
        }
      }
      if FailedNames(areas, outcomes) == [] {
        forall i | 0 <= i < |outcomes| ensures outcomes[i].Some? {
          if i > 0 {
            assert outcomes[i] == outcomes[1..][i - 1];
          }
        }
      }
      forall x | x in FailedNames(areas, outcomes)
        ensures exists i | 0 <= i < |areas| :: outcomes[i].None? && areas[i].name == x
      {
        if x in rest {
          var i :| 0 <= i < |areas[1..]| && outcomes[1..][i].None? && areas[1..][i].name == x;
          assert outcomes[i + 1] == outcomes[1..][i] && areas[i + 1] == areas[1..][i];
        } else {
          assert outcomes[0].None? && areas[0].name == x;
        }
      }
    }
  }

  /** A new plan arrived: the store starts over, the first area (if any) is
      selected, and the store holds the merged first renderings of the areas
      to render. `outcomes` holds the image of each area to render, or nothing
      where its rendering failed. `failed` holds the names of the failed areas
      in the order their failures arrived; the last one's message is the error
      left on screen. */
  function PlanGenerated(s: AppState, file: Option<PlanFile>, plan: HousePlan,
                         outcomes: seq<Option<GeneratedImage>>, failed: seq<string>): (r: AppState)
    requires |outcomes| == |AreasToRender(plan)|
    requires multiset(failed) == multiset(FailedNames(AreasToRender(plan), outcomes))
    ensures r.plan == Some(plan) && r.planFile == file
    ensures failed == [] <==> r.error == None
    ensures failed != [] ==> r.error == Some(InitialRenderError(failed[|failed| - 1]))
    ensures plan.areas != [] ==> r.selected == Some(plan.areas[0]) && r.customizations == []
    ensures plan.areas == [] ==> r.selected == None && r.customizations == s.customizations
    ensures r.images == Merged(RenderResults(AreasToRender(plan), outcomes))
  {
    var cleared := s.(error := None, plan := None, images := map[], selected := None, planFile := file);
    var withPlan := cleared.(plan := Some(plan));
    var selected := if plan.areas != [] then SelectArea(withPlan, plan.areas[0]) else withPlan;
    var areas := AreasToRender(plan);
    var rendered := if areas != [] then selected.(images := Merged(RenderResults(areas, outcomes))) else selected;
    if failed == [] then rendered else rendered.(error := Some(InitialRenderError(failed[|failed| - 1])))
  }

  /** Generating the plan failed: the store is empty and the error is shown. */
  function PlanFailed(s: AppState, file: Option<PlanFile>, message: string): (r: AppState)
    ensures r.plan == None && r.images == map[] && r.selected == None
    ensures r.error == Some(message) && r.planFile == file && r.customizations == s.customizations
  {
    s.(error := Some(message), plan := None, images := map[], selected := None, planFile := file)
  }

  /** `handleGenerateImage` starts only with a selected area and a plan; the
      area it starts with is the one its completion writes to. */
  function RegenerationTarget(s: AppState): (r: Option<string>)
    ensures r.Some? <==> s.selected.Some? && s.plan.Some?
    ensures r.Some? ==> r.value == s.selected.value.name
  {
    if s.selected.None? || s.plan.None? then None else Some(s.selected.value.name)
  }

  /** `handleToggleNightMode` starts only with a selected area; the area it
      starts with is the one its completion writes to. */
  function NightTarget(s: AppState): (r: Option<string>)
    ensures r.Some? <==> s.selected.Some?
    ensures r.Some? ==> r.value == s.selected.value.name
  {
    if s.selected.None? then None else Some(s.selected.value.name)
  }

  /** A regeneration started for the area `name` succeeded: its rendering is
      appended to that area, whatever is selected when it arrives, and the
      described change is reset to the empty text. */
  function RegenerationSucceeded(s: AppState, name: string, image: GeneratedImage): (r: AppState)
    ensures r.images == AddImage(s.images, name, image)
    ensures r.customizations == Put(s.customizations, DescribedChangeKey, Str(""))
    ensures r.plan == s.plan && r.selected == s.selected && r.error == s.error && r.planFile == s.planFile
  {
    s.(images := AddImage(s.images, name, image),
       customizations := Put(s.customizations, DescribedChangeKey, Str("")))
  }

  /** A night-mode toggle started for the area `name` succeeded: its rendering
      is appended to that area; nothing else changes. */
  function NightSucceeded(s: AppState, name: string, image: GeneratedImage): (r: AppState)
    ensures r.images == AddImage(s.images, name, image)
    ensures r.plan == s.plan && r.selected == s.selected && r.error == s.error
    ensures r.customizations == s.customizations && r.planFile == s.planFile
  {
    s.(images := AddImage(s.images, name, image))
  }

  /** A failed regeneration or toggle shows its error and changes nothing else. */
  function GenerationFailed(s: AppState, message: string): (r: AppState)
    ensures r == s.(error := Some(message))
  {
    s.(error := Some(message))
  }

  /** Deleting removes the renderings with the id from the named area. */
  function Delete(s: AppState, name: string, id: string): (r: AppState)
    ensures r == s.(images := DeleteImage(s.images, name, id))
  {
    s.(images := DeleteImage(s.images, name, id))
  }

  // ---------------------------------------------------------------------------
  // Properties of the transitions

  /** After a successful regeneration the next one has no described change,
      while the other customizations render as before. */
  lemma RegenerationResetsDescribedChange(s: AppState, name: string, image: GeneratedImage)
    ensures var r := RegenerationSucceeded(s, name, image);
      && DescribedChange(r.customizations) == Ok("")
      && CustomizationsText(r.customizations) == Ok(KeyValueText(s.customizations))
  {
    ResetDescribedChange(s.customizations);
  }

  /** After a new plan, an area has renderings exactly when it is one of the
      areas to render and its first rendering succeeded, and then exactly one;
      so only the plan's front and back exteriors hold renderings. */
  lemma PlanGeneratedRenders(s: AppState, file: Option<PlanFile>, plan: HousePlan,
                             outcomes: seq<Option<GeneratedImage>>, failed: seq<string>, name: string)
    requires |outcomes| == |AreasToRender(plan)|
    requires multiset(failed) == multiset(FailedNames(AreasToRender(plan), outcomes))
    ensures var r := PlanGenerated(s, file, plan, outcomes, failed);
      && (name in r.images <==>
          exists i | 0 <= i < |outcomes| :: outcomes[i].Some? && AreasToRender(plan)[i].name == name)
      && (name in r.images ==> |r.images[name]| == 1)
      && (name in r.images ==> exists a | a in plan.areas :: a.kind == Exterior && a.name == name)
  {
    var areas := AreasToRender(plan);
    var results := RenderResults(areas, outcomes);
    MergedKeys(results, name);
    if exists i :: 0 <= i < |results| && results[i].Some? && results[i].value.0 == name {
      var i :| 0 <= i < |results| && results[i].Some? && results[i].value.0 == name;
      assert outcomes[i].Some? && areas[i].name == name;
      assert areas[i] in areas;
    }
    if exists i | 0 <= i < |outcomes| :: outcomes[i].Some? && areas[i].name == name {
      var i :| 0 <= i < |outcomes| && outcomes[i].Some? && areas[i].name == name;
      assert results[i].Some? && results[i].value.0 == name;
    }
  }

  /** After a new plan the error is cleared exactly when every first rendering
      succeeded, and an error left on screen names an area whose rendering
      failed. */
  lemma PlanGeneratedError(s: AppState, file: Option<PlanFile>, plan: HousePlan,
                           outcomes: seq<Option<GeneratedImage>>, failed: seq<string>)
    requires |outcomes| == |AreasToRender(plan)|
    requires multiset(failed) == multiset(FailedNames(AreasToRender(plan), outcomes))
    ensures var r := PlanGenerated(s, file, plan, outcomes, failed);
      && (r.error == None <==> forall i | 0 <= i < |outcomes| :: outcomes[i].Some?)
      && (r.error.Some? ==> exists i | 0 <= i < |outcomes| ::
            outcomes[i].None? && r.error == Some(InitialRenderError(AreasToRender(plan)[i].name)))
  {
    var areas := AreasToRender(plan);
    var names := FailedNames(areas, outcomes);
    FailedNamesExact(areas, outcomes);
    assert |failed| == |multiset(failed)| == |multiset(names)| == |names|;
    if failed != [] {
      var x := failed[|failed| - 1];
      assert x in multiset(failed);
      assert x in names;
    }
  }

  /** A regeneration lands on the area it was started for: selecting another
      area while it runs leaves that area's renderings alone. */
  lemma RegenerationLandsOnRequestedArea(s: AppState, other: Area, image: GeneratedImage)
    requires RegenerationTarget(s).Some? && other.name != RegenerationTarget(s).value
    ensures var name := RegenerationTarget(s).value;
      var r := RegenerationSucceeded(SelectArea(s, other), name, image);
      && ImagesOf(r.images, name) == ImagesOf(s.images, name) + [image]
      && ImagesOf(r.images, other.name) == ImagesOf(s.images, other.name)
      && r.selected == Some(other)
  {
  }

  /** A regeneration that completes after a confirmed restart still writes its
      rendering and the reset described change into the emptied state. */
  lemma RegenerationAfterRestart(s: AppState, name: string, image: GeneratedImage)
    ensures var r := RegenerationSucceeded(Restart(s, true), name, image);
      && r.images == map[name := [image]]
      && r.customizations == [(DescribedChangeKey, Str(""))]
      && r.plan == None && r.selected == None
  {
    assert ImagesOf(map[], name) + [image] == [image];
  }

  /** Renderings of the other areas are never touched by an append. */
  lemma AppendLeavesOtherAreas(s: AppState, name: string, image: GeneratedImage, other: string)
    requires other != name
    ensures ImagesOf(RegenerationSucceeded(s, name, image).images, other) == ImagesOf(s.images, other)
    ensures ImagesOf(NightSucceeded(s, name, image).images, other) == ImagesOf(s.images, other)
  {
  }

  /** Each successful generation adds one rendering to its area. */
  lemma AppendGrowsByOne(s: AppState, name: string, image: GeneratedImage)
    ensures |ImagesOf(NightSucceeded(s, name, image).images, name)| == |ImagesOf(s.images, name)| + 1
    ensures |ImagesOf(RegenerationSucceeded(s, name, image).images, name)| == |ImagesOf(s.images, name)| + 1
  {
  }

  /** Restarting twice is restarting once. */
  lemma RestartIdempotent(s: AppState, first: bool, second: bool)
    ensures Restart(Restart(s, first), second) == if first || second then Initial else s
  {
  }

  /** Deleting a rendering just added under a fresh id restores the state. */
  lemma NightThenDelete(s: AppState, name: string, image: GeneratedImage)
    requires name in s.images
    requires forall x | x in s.images[name] :: x.id != image.id
    ensures Delete(NightSucceeded(s, name, image), name, image.id) == s
  {
    DeleteAfterAdd(s.images, name, image);
  }

  /** The customizations object never holds a key twice: every transition
      keeps its keys distinct. */
  lemma TransitionsKeepKeysUnique(s: AppState, area: Area, name: string, image: GeneratedImage,
                                  confirmed: bool, file: Option<PlanFile>, message: string, id: string,
                                  plan: HousePlan, outcomes: seq<Option<GeneratedImage>>, failed: seq<string>)
    requires KeysUnique(s.customizations)
    requires |outcomes| == |AreasToRender(plan)|
    requires multiset(failed) == multiset(FailedNames(AreasToRender(plan), outcomes))
    ensures KeysUnique(SelectArea(s, area).customizations)
    ensures KeysUnique(PlanGenerated(s, file, plan, outcomes, failed).customizations)
    ensures KeysUnique(Restart(s, confirmed).customizations)
    ensures KeysUnique(PlanFailed(s, file, message).customizations)
    ensures KeysUnique(RegenerationSucceeded(s, name, image).customizations)
    ensures KeysUnique(NightSucceeded(s, name, image).customizations)
    ensures KeysUnique(GenerationFailed(s, message).customizations)
    ensures KeysUnique(Delete(s, name, id).customizations)
  {
    PutKeepsKeysUnique(s.customizations, DescribedChangeKey, Str(""));
  }
}
