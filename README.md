# Prompt rule engine of the AI house modeller

The house modeller asks an image service to render each area (room or
exterior) of a generated house plan. The core modelled here is the prompt
rule engine in `App.tsx`, together with the application state it updates.

- **Prompt builders.** They compose a prompt for the first, automatic
  rendering of an area and for each manual regeneration. The prompt is a
  three-line introduction, an optional block of user customizations, and a
  sequence of instruction paragraphs ("rules").
  - A room gets the no-putting-green rule, unless the user asked for a putting
    green.
  - A front exterior is first passed through a sanitizer that rewrites
    backyard words such as pool, lake and boat. It then gets three
    front-view rules.
  - A back exterior gets the pool and lake rules when the plan's description
    mentions them, then the no-garage rule.
  - The ranch-style rule follows when the description mentions it.
  - On regeneration only, bedrooms, garages, theaters and laundry rooms get
    their own rules.
- **Display cleaner.** The image service echoes the prompt back. The cleaner
  removes the rule paragraphs from it before it is shown, then collapses
  whitespace and trims.
- **Night-mode toggle.** It appends a fixed night sentence to a shown prompt,
  or removes that sentence.
- **Rendering store.** It keeps each area's renderings: the merged first
  renderings of a new plan, appending, deleting, selecting, restarting and
  error reporting. A regeneration or night-mode toggle writes its rendering
  to the area it was started for, even if another area is selected by then.

The model is split into these modules:

- `Text`: JavaScript whitespace, trimming, ASCII case folding and substring
  search.
- `Rules`: the clause catalog.
- `Escape`: `escapeRegExp`.
- `Cleaner` and `CleanerProperties`: the display cleaner.
- `Sanitizer`: the front-view sanitizer.
- `Customize`: the customization text.
- `Builder` and `BuilderProperties`: the prompt builders.
- `Night`: the night-mode toggle.
- `Store`: the rendering store.

`Types` holds the plan, area and image records. `Wrappers` holds `Option`
and `Result`.

Where the code differs from what it evidently intends, the model follows the
code:

- **Front exterior rule.** The pattern meant to remove it reads
  "COMPLETELY IGIGNORE", so it never matches. The cleaner therefore leaves
  this clause in the displayed prompt (`CleanerProperties.FrontExteriorSurvives`).
- **Laundry clauses.** The two laundry layout clauses have no removal
  pattern at all, so they stay in the displayed prompt too.
- **Idempotence.** The cleaner is not idempotent for every input. Removing
  one literal can splice two halves of another literal together. Idempotence
  is proved for inputs whose cleaned text holds no rule literal.
- **Sanitizer.** After sanitizing, "swimming pool" can still occur
  (`Sanitizer.SwimmingPoolSurvives`). The whole word "pool", "putting green",
  "basketball court", "lake" and "boat" never remain.

## Model

| member | source | states |
|---|---|---|
| Escape.EscapeRegExp | App.tsx:56-58 | escaping at most doubles the length, and a text without metacharacters is unchanged |
| Escape.EscapeRoundTrip | App.tsx:56-58 | the pattern built from an escaped text stands for exactly that text |
| Escape.EscapeInjective | App.tsx:56-58 | two different texts never escape to the same pattern |
| Text.Trim | App.tsx:80 | `trim`: the JavaScript whitespace (ASCII and Unicode spaces and line ends) is removed from both ends |
| Text.Collapse | App.tsx:80 | `replace(/\s\s+/g, ' ')`: every run of two or more whitespace characters becomes one space, single ones stay |
| Cleaner.RemoveSpaced | App.tsx:63-72 | a `/\s*LIT\s*/g` removal: every copy of the literal, with the whitespace around it, is cut out left to right |
| Cleaner.RemoveAll | App.tsx:75-77 | a global removal of an escaped literal: every copy is cut out left to right |
| Cleaner.Clean | App.tsx:60-81 | the displayed prompt has no two adjacent whitespace characters and no whitespace at either end |
| Cleaner.CleanPromptForDisplay | App.tsx:60-81 | the thirteen removals followed by the whitespace collapse and trim compute `Clean` |
| Cleaner.CleanWithoutRules | App.tsx:60-81 | a prompt without any rule literal is only normalised (whitespace collapsed, ends trimmed) |
| Cleaner.CleanIdempotent | App.tsx:60-81 | cleaning a cleaned prompt changes nothing when the cleaned prompt holds no rule literal |
| Cleaner.CleanSpacedClause | App.tsx:63-72 | a clause erased by its `\s*LITERAL\s*` pattern leaves the displayed prompt as if it had never been appended |
| Cleaner.CleanLiteralClause | App.tsx:75-76 | a clause erased by its escaped literal leaves the displayed prompt as if it had never been appended |
| Cleaner.CleanNightClause | App.tsx:77 | the night sentence appended after a space leaves the displayed prompt as if it had never been appended |
| Cleaner.CleanKeptClause | App.tsx:60-81 | a clause that no removal touches is kept, and the displayed prompt is just the normalised text |
| CleanerProperties.NoPoolInGarageRoundTrip | App.tsx:26-27 | cleaning a rule-free prompt plus the garage clause gives the same display as the prompt alone |
| CleanerProperties.NoGarageInBackyardRoundTrip | App.tsx:29-30 | the no-garage-in-backyard clause disappears from the display |
| CleanerProperties.NoLakeInFrontRoundTrip | App.tsx:32-33 | the no-lake-in-front clause disappears from the display |
| CleanerProperties.ProjectorRoundTrip | App.tsx:36-37 | the projector clause disappears from the display |
| CleanerProperties.TheaterSeatingRoundTrip | App.tsx:39-40 | the theater seating clause disappears from the display |
| CleanerProperties.RanchStyleRoundTrip | App.tsx:42-43 | the ranch style clause disappears from the display |
| CleanerProperties.CarPlacementRoundTrip | App.tsx:45-46 | the car placement clause disappears from the display |
| CleanerProperties.NoPuttingGreenInRoomRoundTrip | App.tsx:48-49 | the no-putting-green clause disappears from the display |
| CleanerProperties.NoFireplaceAboveBedRoundTrip | App.tsx:51-52 | the no-fireplace-above-bed clause disappears from the display |
| CleanerProperties.BackExteriorPoolRoundTrip | App.tsx:24 | the back-exterior pool clause, removed through its escaped literal, disappears from the display |
| CleanerProperties.BackExteriorLakeAndBoatRoundTrip | App.tsx:34 | the back-exterior lake clause, removed through its escaped literal, disappears from the display |
| CleanerProperties.NightModeRoundTrip | App.tsx:21 | a prompt with the night sentence appended after a space displays like the prompt without it |
| CleanerProperties.FrontExteriorSurvives | App.tsx:22-23 | the front exterior clause is not removed (its pattern misspells the text): the display is the normalised prompt and ends with the clause |
| CleanerProperties.StackedLaundrySurvives | App.tsx:362 | the stacked laundry clause has no removal pattern and stays at the end of the display |
| CleanerProperties.SideBySideLaundrySurvives | App.tsx:364 | the side-by-side laundry clause has no removal pattern and stays at the end of the display |
| Sanitizer.ReplaceAll | App.tsx:96-102 | `replace(/pat/gi, rep)` for a pattern without metacharacters: non-overlapping case-insensitive matches left to right, each replaced |
| Sanitizer.ReplaceWord | App.tsx:97 | `replace(/\bpool\b/gi, rep)`: a match needs a non-word character or an end on both sides, judged on the step's input |
| Sanitizer.SanitizeForFrontView | App.tsx:91-103 | the seven case-insensitive replacements in source order, with `pool` matched as a whole word |
| Sanitizer.ReplaceAllClears | App.tsx:96 | a case-insensitive global replacement whose replacement text cannot form the pattern leaves no copy of the pattern |
| Sanitizer.ReplaceWordClears | App.tsx:97 | the whole-word replacement of `\bpool\b` leaves no whole-word copy |
| Sanitizer.ReplaceWordIdentityIff | App.tsx:97 | the whole-word replacement changes the text if and only if the text holds the word |
| Sanitizer.SanitizeRemovesPoolWord | App.tsx:91-103 | no whole word "pool" survives the sanitizer |
| Sanitizer.SanitizeRemovesPuttingGreen | App.tsx:91-103 | no "putting green", in any letter case, survives |
| Sanitizer.SanitizeRemovesBasketballCourt | App.tsx:91-103 | no "basketball court" survives |
| Sanitizer.SanitizeRemovesLake | App.tsx:91-103 | no "lake" survives |
| Sanitizer.SanitizeRemovesBoat | App.tsx:91-103 | no "boat" survives |
| Sanitizer.SanitizeClears | App.tsx:91-103 | all five absences together, for every input text |
| Sanitizer.SwimmingPoolBecomesLawn | App.tsx:96 | "Swimming Pool" becomes "lush lawn" (case-insensitive) |
| Sanitizer.WordStepAloneKeepsSwimming | App.tsx:97 | without the first step, the word step alone would leave "swimming lush lawn" |
| Sanitizer.PoolsideKept | App.tsx:97 | "poolside" is not a whole-word "pool" and passes unchanged |
| Sanitizer.SwimmingPoolSurvives | App.tsx:96-97 | "swimming poo" followed by "swimming pool" still holds "swimming pool" after sanitizing |
| Customize.Lookup | App.tsx:315 | a key is found exactly when it is present, with its stored value |
| Customize.Put | App.tsx:382 | the updated object maps the key to the new value, keeps every other key, and keeps the key order |
| Customize.PutPlaces | App.tsx:382 | an existing key is updated in place; a new key goes at the end |
| Customize.PutKeepsKeysUnique | App.tsx:382 | updating keeps the keys distinct |
| Customize.Underscores | App.tsx:291 | every underscore of a key becomes a space and nothing else changes |
| Customize.Render | App.tsx:288-297 | an entry renders to non-empty text exactly when it is not the described change and its value is non-empty, and then starts with "key: " |
| Customize.RenderedPartsExact | App.tsx:287-299 | membership: a part is kept exactly when it is the non-empty rendering of some entry |
| Customize.RenderedPartsAppend | App.tsx:287-299 | the parts keep the entries' order: the parts of two runs of entries are the first run's parts, then the second's |
| Customize.KeyValueTextEmpty | App.tsx:287-299 | the key/value text is empty exactly when every entry renders empty |
| Customize.DescribedChangeNotRendered | App.tsx:289 | the described change never contributes to the key/value text |
| Customize.DescribedChange | App.tsx:301 | a described change that is a list is an error (its `trim` throws); otherwise the result is trimmed |
| Customize.Block | App.tsx:310-312 | the block is empty exactly when the customization text is, and otherwise ends with it |
| Customize.CustomizationsTextEmpty | App.tsx:287-304 | with no customizations the text is empty |
| Customize.OnlyDescribedChange | App.tsx:301-304 | with only a described change the text is ". Additional modifications: <change>." |
| Customize.ResetDescribedChange | App.tsx:382 | after the reset the described change is empty and the text is the key/value text alone |
| Customize.NoCustomizationsNoText | App.tsx:310-312 | no customizations means no block is added |
| Builder.Intro | App.tsx:177-179 | the three-line introduction with the lower-cased area name and both descriptions; the regeneration builder writes the same text at App.tsx:306-308 |
| Builder.AppendRoomRule | App.tsx:314-324 | appends the no-putting-green paragraph to a room exactly when no putting green is wanted |
| Builder.AppendFrontRules | App.tsx:328-333 | a front exterior is sanitized, then gets the front exterior, no-lake and car placement paragraphs |
| Builder.AppendBackRules | App.tsx:334-342 | a back exterior gets the pool and lake paragraphs when the description mentions them, then the no-garage paragraph |
| Builder.AppendRanchRule | App.tsx:343-345 | the ranch paragraph is appended when the description mentions "ranch style" |
| Builder.AppendExteriorRules | App.tsx:325-346 | the exterior block: front, back and ranch, in that order, only for exteriors |
| Builder.AppendNameRules | App.tsx:348-357 | bedroom, garage and theater paragraphs, by the lower-cased area name |
| Builder.AppendLaundryRule | App.tsx:359-366 | a laundry gets the stacked or the side-by-side paragraph by the washer choice, or none |
| Builder.ComposeCustomizationsText | App.tsx:287-304 | the composed customization text, or the error of a list-valued described change |
| Builder.BuildInitialPrompt | App.tsx:177-209 | the first-rendering prompt is the (sanitized for front) introduction followed by the paragraphs of the chosen rules |
| Builder.BuildRegeneratedPrompt | App.tsx:287-366 | the regeneration prompt is the introduction with the customization block, sanitized for front, then the paragraphs of the chosen rules; a list-valued described change is an error |
| Builder.InitialShape | App.tsx:177-209 | the initial prompt is the lead followed by one paragraph per rule of the initial rule list |
| Builder.RegeneratedShape | App.tsx:306-366 | the regeneration prompt is the lead followed by one paragraph per rule of the regeneration rule list |
| BuilderProperties.InitialRuleCount | App.tsx:183-209 | each rule appears in the first-rendering prompt once if its condition holds and not at all otherwise |
| BuilderProperties.RegeneratedRuleCount | App.tsx:318-366 | each rule appears in the regeneration prompt once if its condition (including the putting green and washer choices) holds, and not at all otherwise |
| BuilderProperties.ExteriorRuleCount | App.tsx:325-346 | the exterior block chooses each rule at most once, exactly under its condition |
| BuilderProperties.FrontRuleCount | App.tsx:328-333 | the front rules appear once each for a front exterior, never otherwise |
| BuilderProperties.BackRuleCount | App.tsx:334-342 | the back rules appear once each under their description conditions |
| BuilderProperties.NameRuleCount | App.tsx:348-357 | the bedroom, garage and theater rules appear once each by the area name |
| BuilderProperties.LaundryRuleCount | App.tsx:359-366 | the laundry rules appear by the washer choice, only in a laundry |
| BuilderProperties.OneLaundryLayout | App.tsx:360-365 | at most one of the two laundry layouts is requested |
| BuilderProperties.FrontRulesFirst | App.tsx:328-333 | for a front exterior the first three paragraphs are front exterior, no-lake and car placement, in both builders |
| BuilderProperties.TheaterClausesAdjacent | App.tsx:354-357 | the projector paragraph is immediately followed by the seating paragraph |
| BuilderProperties.BackyardIsBack | App.tsx:327 | the "backyard" test adds nothing to the "back" test |
| BuilderProperties.ParagraphsContain | App.tsx:184-207 | every chosen rule's clause occurs in the paragraphs |
| BuilderProperties.InitialPromptHasClause | App.tsx:177-209 | every chosen rule's clause occurs in the first-rendering prompt |
| BuilderProperties.RegeneratedPromptHasClause | App.tsx:306-366 | every chosen rule's clause occurs in the regeneration prompt |
| BuilderProperties.InitialFrontLead | App.tsx:191-195 | for a front exterior the rules follow the sanitized introduction, which holds no pool, putting green, basketball court, lake or boat |
| BuilderProperties.RegeneratedFrontLead | App.tsx:328-333 | the same for a regeneration, where the customization block is sanitized too |
| BuilderProperties.OtherAreaKeepsIntro | App.tsx:177-192 | for any area other than a front exterior, both prompts are the introduction (with the customization block on regeneration) as written, then the rule paragraphs |
| BuilderProperties.RegeneratedWithoutCustomizations | App.tsx:306-357 | without customizations, an area with no bedroom, garage, theater or laundry name regenerates with its first-rendering prompt |
| BuilderProperties.BedroomRegenerationDiffers | App.tsx:348-350 | a bedroom's regeneration adds a rule its first rendering lacks |
| Night.RemoveFirstAt | App.tsx:400 | `replace` with a text pattern cuts out exactly the first copy and keeps the rest in order |
| Night.RemoveFirstAbsent | App.tsx:400 | without a copy nothing is cut |
| Night.FirstAtUnique | App.tsx:400 | the first copy is unique |
| Night.ToggleNightPrompt | App.tsx:395-401 | enabling appends a space and the night sentence; disabling cuts its first copy and trims |
| Night.AppendedIsFirst | App.tsx:397 | in a prompt without the sentence, the appended copy is the first one |
| Night.EnableThenDisable | App.tsx:395-401 | for a trimmed prompt without the sentence, enabling then disabling gives the prompt back |
| Night.NightModeTextIsSentence | App.tsx:21 | the night sentence does not start or end with whitespace and its final full stop occurs only at its end |
| Night.ToggleRoundTrip | App.tsx:395-401 | the enable-then-disable round trip with the application's sentence |
| Night.DisableRemovesOneCopy | App.tsx:400 | a doubled sentence keeps one copy after disabling |
| Night.DisableWithoutSentence | App.tsx:400 | disabling a prompt without the sentence only trims it |
| Store.AddImage | App.tsx:377-380 | the new rendering goes at the end of its area's list; other areas are unchanged |
| Store.WithoutId | App.tsx:423 | the filter keeps only renderings with another id |
| Store.WithoutIdCounts | App.tsx:423 | every rendering with another id is kept as often as it was there, none with the id |
| Store.WithoutIdAppend | App.tsx:423 | the filter keeps the order of the renderings |
| Store.WithoutIdAbsent | App.tsx:423 | filtering an id that is not there changes nothing |
| Store.WithoutIdIdempotent | App.tsx:423 | filtering twice is filtering once |
| Store.DeleteImage | App.tsx:421-429 | the named area keeps the renderings with other ids; other areas are unchanged |
| Store.DeleteAfterAdd | App.tsx:377-380 | deleting a rendering just appended under a fresh id restores the store |
| Store.FindExterior | App.tsx:252-253 | the result is an exterior of the plan whose lower-cased name contains the word, and there is none exactly when no exterior matches |
| Store.FindExteriorFirst | App.tsx:252-253 | the found area is the first that matches |
| Store.AreasToRender | App.tsx:252-255 | at most two areas are rendered, all of them exteriors of the plan |
| Store.FrontAndBackRenderedTwice | App.tsx:252-255 | an exterior named both front and back is rendered twice |
| Store.Merged | App.tsx:264-269 | every area of the merged store holds one rendering |
| Store.MergedKeys | App.tsx:264-269 | an area is in the merged store exactly when some successful result names it |
| Store.MergedLast | App.tsx:264-269 | an area keeps the rendering of the last result that names it |
| Store.MergeRenders | App.tsx:264-271 | the loop over the results builds the merged store |
| Store.SelectArea | App.tsx:155-158 | selecting sets the selected area, clears the customizations, and changes nothing else |
| Store.Restart | App.tsx:160-169 | a confirmed restart returns to the initial state, a declined one changes nothing |
| Store.RestartIdempotent | App.tsx:160-169 | restarting twice is restarting once |
| Store.InitialRenderError | App.tsx:222 | the message a failed first rendering of an area leaves |
| Store.RenderResults | App.tsx:257-261 | the result of each area to render names that area and carries its image exactly where its rendering succeeded |
| Store.FailedNamesExact | App.tsx:220-224 | no area fails exactly when every rendering succeeded, and every failed name is that of an area whose rendering failed |
| Store.PlanGenerated | App.tsx:227-272 | a new plan replaces the old one, selects its first area, holds the merged results of its areas to render, and shows the message of the last failure to arrive |
| Store.PlanGeneratedRenders | App.tsx:252-271 | after a new plan an area has renderings exactly when it is an area to render whose rendering succeeded, then exactly one, so only front and back exteriors of the plan hold renderings |
| Store.PlanGeneratedError | App.tsx:220-231 | after a new plan the error is cleared exactly when every first rendering succeeded, and a remaining error names an area whose rendering failed |
| Store.PlanFailed | App.tsx:227-279 | a failed plan leaves an empty store, no plan or selection, and the error |
| Store.RegenerationTarget | App.tsx:283 | a regeneration starts exactly when an area is selected and a plan is present, for the selected area |
| Store.RegenerationSucceeded | App.tsx:377-382 | the rendering is appended to the area the regeneration started for, whatever is selected on arrival, and the described change is reset; nothing else changes |
| Store.RegenerationLandsOnRequestedArea | App.tsx:282-382 | selecting another area while a regeneration runs leaves that area alone; the rendering lands on the requested area |
| Store.RegenerationAfterRestart | App.tsx:377-382 | a regeneration completing after a confirmed restart still writes its rendering and the reset described change |
| Store.RegenerationResetsDescribedChange | App.tsx:382 | after a regeneration the next one has no described change and the same key/value text |
| Store.NightTarget | App.tsx:392 | a night-mode toggle starts exactly when an area is selected, for that area |
| Store.NightSucceeded | App.tsx:410-413 | the night rendering is appended to the area the toggle started for; nothing else changes |
| Store.GenerationFailed | App.tsx:383-384 | a failed generation only sets the error |
| Store.Delete | App.tsx:421-429 | deleting changes only the store |
| Store.AppendLeavesOtherAreas | App.tsx:377-380 | an append never touches the other areas' renderings |
| Store.AppendGrowsByOne | App.tsx:377-413 | an append adds exactly one rendering to its area |
| Store.NightThenDelete | App.tsx:421-429 | deleting a just-appended night rendering restores the state |
| Store.TransitionsKeepKeysUnique | App.tsx:382 | every transition, a new plan included, keeps the customization keys distinct, as a JavaScript object's keys are |

## Left out

- React rendering, the components, the lightbox, the tour, the user context and the service worker are outside the prompt engine and are not modelled.
- `generateImage` and `generateHousePlan` are network calls. The plan, the echoed prompt and the image URL are inputs. Their failures are the transitions `PlanFailed` and `GenerationFailed`.
- The concurrency of `Promise.all` is not modelled. The first-rendering outcomes are a sequence in the order of the areas rendered. The order in which failures arrive is an input to `PlanGenerated`: any order of the failed areas' names.
- A regeneration or night-mode toggle is two steps: the request (`RegenerationTarget`, `NightTarget`) fixes the area, and the completion (`RegenerationSucceeded`, `NightSucceeded`, `GenerationFailed`) may come after any other transitions. The model does not enumerate those interleavings.
- `generateUniqueId` (clock and randomness): ids are parameters of the transitions.
- `window.confirm` is a boolean parameter of `Restart`.
- The busy flags (`isGeneratingImage`, `isLoadingPlan`, the loading message) are UI feedback only and are not modelled.
- A list-valued described change makes `trim` throw before the `try` block, which leaves the busy flag set. The model returns the error `TrimOfList` and changes no state.
- Letter case is folded for ASCII letters only. The Unicode case mappings of `toLowerCase` and of the `i` flag are not modelled.
- Customizations are an association list in insertion order. JavaScript objects list integer-like keys first; the model does not reorder them.
- The regular expressions are modelled only as the specific removals and replacements the code performs. A general regular-expression engine is not part of this model.
- Builder.BuildInitialPrompt: stated for any catalog of rule texts. The application uses `Builder.Texts`, and the cleaner's properties are proved about those texts.
- Builder.BuildRegeneratedPrompt: stated for any catalog of rule texts, like `BuildInitialPrompt`.
- Cleaner.CleanIdempotent: stated only when the cleaned prompt holds no rule literal, because in general cleaning can splice a new literal together.
- Sanitizer.SanitizeClears: does not state that "swimming pool" never remains, because as written it can (`Sanitizer.SwimmingPoolSurvives`).
- Store.RegenerationSucceeded: takes the new rendering as given. Its prompt is `Cleaner.Clean` of the echoed prompt, which `Cleaner.CleanPromptForDisplay` computes.
- Store.NightSucceeded: takes the new rendering as given, like `RegenerationSucceeded`. The prompt sent is `Night.ToggleNightPrompt` of the base rendering's prompt.
