# AI Smart Prompt Improver: a Dafny model of its core

The AI Smart Prompt Improver is a three-step wizard in a web page.

1. The user types a raw idea for a mobile app.
2. A generative-text service refines the idea into a one-paragraph prompt. The service then suggests feature categories, each with mutually exclusive options, and the user picks one option per category.
3. An image service draws one mockup per screen. The screens are splash, an optional login, dashboard, main feature and settings. The mockups are shown in a gallery.

This project models the core of that wizard:

- the service layer (`services/geminiService.ts`): the requests it sends, how it turns answers into results or errors, the list of screens and their prompts, and the aggregation of the image requests;
- the wizard controller (`App.tsx`): its eight pieces of state, its handlers, the default selections, the selection updater and what it renders in each state;
- the data types (`types.ts`);
- three components:
  - the prompt input (`components/PromptInput.tsx`): its local text, submit guard and disabled button;
  - the feature selector (`components/FeatureSelector.tsx`): which option is shown checked and what choosing one reports;
  - the gallery (`components/UIGallery.tsx`): tiles, alt texts and titles.

The remote services are not modelled. Each remote call is a function-typed parameter, an oracle that either answers or fails. `JSON.parse` is an oracle that returns `None` on text that does not parse.

The layout follows the source files:

| file | module | models |
|---|---|---|
| `types.dfy` | `Types` | `types.ts`, plus `Option` and `Result` |
| `text.dfy` | `Text` | JavaScript `trim`, `toLowerCase`, `includes` and number formatting |
| `array_ops.dfy` | `ArrayOps` | `find`, `some` and `join` |
| `gemini_service.dfy` | `GeminiService` | `services/geminiService.ts` |
| `feature_selector.dfy` | `FeatureSelector` | `components/FeatureSelector.tsx` |
| `prompt_input.dfy` | `PromptInput` | `components/PromptInput.tsx`, as the class `Form` with its text field |
| `ui_gallery.dfy` | `UIGallery` | `components/UIGallery.tsx` |
| `app.dfy` | `App` | `App.tsx` |

In `App.tsx` the eight `useState` values are the fields of the class `Wizard`. `Snapshot` is their value at one moment. Each handler is split at its `await`s. Every synchronous stretch of setter calls is a step function on snapshots, and each method of `Wizard` is proved to leave exactly the snapshot that its step functions give. The properties of a whole run are lemmas about those functions:

- where the run ends;
- which states it passes through;
- that it keeps the wizard's invariant.

## Model

| member | source | states |
|---|---|---|
| Types.Ordinal | types.ts:2-10 | the seven states take the enum values 0 to 6 in declaration order; ERROR is the last one (6) |
| Types.OrdinalInjective | types.ts:2-10 | two states have the same enum value exactly when they are the same state |
| Text.LeadingWhitespace | services/geminiService.ts:25 | the count of leading characters that `trim` removes: all are white space, and the next character is not |
| Text.TrailingStart | services/geminiService.ts:25 | where the trailing white space that `trim` removes begins: everything after it is white space, and the character before it is not |
| Text.TrimRemovesBorders | components/PromptInput.tsx:14-15 | `trim` yields the slice between the leading and the trailing white space; a non-empty result has no white space at either end |
| Text.TrimEmptyIff | components/PromptInput.tsx:14 | the trimmed text is empty exactly when the input is white space only (the falsy case of `prompt.trim()`) |
| Text.TrimIdempotent | services/geminiService.ts:25 | trimming an already trimmed text changes nothing |
| Text.ToLower | services/geminiService.ts:99 | lower-casing keeps the length and maps each character on its own |
| Text.ToLowerIdempotent | services/geminiService.ts:99 | a lower-cased text contains no ASCII capital and is its own lower case |
| Text.IncludesIff | services/geminiService.ts:99 | `includes` holds exactly when some position of the text starts a copy of the searched text |
| Text.IncludesInfix | services/geminiService.ts:99 | a text surrounded by anything is still included |
| Text.NatToString | components/UIGallery.tsx:37 | `${n}` renders a number as a non-empty string of decimal digits with no leading zero |
| Text.NatToStringRoundTrip | components/UIGallery.tsx:41 | reading the rendered digits back gives the number |
| ArrayOps.FindFirst | services/geminiService.ts:102 | `find` returns nothing exactly when no element matches, and otherwise the element at the least matching index |
| ArrayOps.FindFirstAt | components/FeatureSelector.tsx:22 | the element `find` returns is determined by the first matching position |
| ArrayOps.AnyMatch | services/geminiService.ts:99 | `some` holds exactly when some element matches |
| ArrayOps.JoinSnoc | services/geminiService.ts:90 | joining one more part appends the separator and then that part; joining one part gives the part alone |
| ArrayOps.JoinIncludesParts | services/geminiService.ts:90 | every part occurs in the joined text |
| GeminiService.ImprovePrompt | services/geminiService.ts:11-26 | a failed call passes its error on; a successful one yields the answer with surrounding white space trimmed |
| GeminiService.SuggestFeatures | services/geminiService.ts:64-87 | a failed call passes its error on; an answer that does not parse gives the invalid-format error; a parsed answer is returned unchanged |
| GeminiService.SuggestAcceptsOptionlessCategory | services/geminiService.ts:79-82 | the parsed categories are not checked: a category with no options is accepted |
| GeminiService.SummaryEntries | services/geminiService.ts:90 | one "category: option" entry per selection, in selection order |
| GeminiService.FeatureSummaryInOrder | services/geminiService.ts:90 | the summary of no selections is empty; each further selection adds ", " and then its entry |
| GeminiService.FeatureSummaryMentionsEach | services/geminiService.ts:90 | every selection's "category: option" entry occurs in the summary |
| GeminiService.FillCarriesContext | services/geminiService.ts:92-119 | whatever a screen prompt's wording, the filled prompt contains the base prompt and the feature summary |
| GeminiService.FillCarriesMiddlePiece | services/geminiService.ts:102 | any text placed in a template's middle wording reaches the filled prompt |
| GeminiService.LoginPromptCarriesAuthMethod | services/geminiService.ts:102 | the login prompt contains the authentication method it was given |
| GeminiService.GetScreenGenerationPrompts | services/geminiService.ts:89-122 | the list built by pushing screens one at a time equals the screen list `ScreenPlan`, whose shape and contents the next lemmas state |
| GeminiService.ScreenPlanShape | services/geminiService.ts:92-121 | the screens come in the order splash, optional login, dashboard, main feature, settings; there are 5 screens with login and 4 without; login is present exactly when some selection has a category containing "authentication" and an option not containing "no login", both compared in lower case |
| GeminiService.ScreenPromptsCarryContext | services/geminiService.ts:92-119 | every screen prompt contains the base prompt and the whole feature summary |
| GeminiService.LoginPromptNamesFirstAuthSelection | services/geminiService.ts:99-104 | the login prompt names the option of the first selection with an authentication category, so "undefined" never reaches it |
| GeminiService.FirstAuthSelection | services/geminiService.ts:99-102 | whenever login is included there is a first authentication selection, and its option is the authentication method |
| GeminiService.AuthMethodMayComeFromOptedOutEntry | services/geminiService.ts:99-102 | the named method can come from an authentication entry that opted out of login, while a later entry is what caused the login screen |
| GeminiService.AwaitAll | services/geminiService.ts:128-140 | Promise.all succeeds exactly when every request resolves, and then yields every response in request order; otherwise it fails with the reason of a rejected request |
| GeminiService.ExtractImages | services/geminiService.ts:142-147 | succeeds exactly when every response has a non-empty image list, and then yields the first image of each, in order; otherwise it fails with the image-generation error |
| GeminiService.GenerateUiMockups | services/geminiService.ts:124-150 | succeeds exactly when every screen's request resolves with an image; on success it yields one image per screen, each the first image of its screen's response, in screen order |
| FeatureSelector.IsSelected | components/FeatureSelector.tsx:22 | an option is shown selected exactly when the first selection entry of its category names it; with no entry, nothing is selected |
| FeatureSelector.NothingSelectedWithoutEntry | components/FeatureSelector.tsx:22 | with no selection entry for a category, none of its options is shown selected |
| FeatureSelector.AtMostOneSelected | components/FeatureSelector.tsx:21-29 | when a category's option names are distinct, at most one of its radio options is checked |
| FeatureSelector.RenderOptions | components/FeatureSelector.tsx:21-37 | one radio option per category option, in order, with its name and description; it is checked as the lookup says and reports its category and option name |
| FeatureSelector.Render | components/FeatureSelector.tsx:16-40 | one card per category, in category order, carrying the category's name, description and options |
| FeatureSelector.RenderedOptionsFollowSelection | components/FeatureSelector.tsx:16-30 | in every card, each option is checked exactly when the first entry of its category names it, and choosing it reports that card's category and that option |
| PromptInput.Form.constructor | components/PromptInput.tsx:10 | the text box starts empty |
| PromptInput.Form.OnChange | components/PromptInput.tsx:31 | the local text becomes exactly what was typed |
| PromptInput.Form.HandleSubmit | components/PromptInput.tsx:12-17 | the callback is called exactly when the submit button is enabled, which is exactly when the text is not white space only; it gets the trimmed text, which is non-empty and has no white space at either end |
| UIGallery.Tiles | components/UIGallery.tsx:32-41 | one tile per image, in image order: the image as a PNG data URI, the alt text with the 1-based position and the title chosen by position |
| UIGallery.TitleByIndex | components/UIGallery.tsx:41 | the first five tiles take the fixed titles; a later tile is titled "Screen " followed by digits whose value is its 1-based position |
| UIGallery.FixedTitles | components/UIGallery.tsx:10-16 | the five fixed titles are, in order, the gallery's spelling of the five screen names of the screen list |
| UIGallery.TitlesMatchWithLogin | components/UIGallery.tsx:10-16 | when the login screen is generated, every tile is titled after the screen its image was made for |
| UIGallery.MislabelledWithoutLogin | components/UIGallery.tsx:41 | without the login screen there are four images: the dashboard image is titled "Login Screen", and no tile is titled "Settings Screen" |
| UIGallery.IntendedTiles | components/UIGallery.tsx:32-41 | the corrected gallery: each tile is that of `Tiles`, except that its title comes from the name of the screen its image was made for |
| UIGallery.ScreenNames | services/geminiService.ts:89-122 | the names of the screen list, in screen order |
| UIGallery.IntendedTitlesMatch | components/UIGallery.tsx:32-41 | in the corrected gallery every tile is titled after its screen, with or without login; the second tile is the login screen only when there is one, and the last tile is always settings |
| App.DefaultSelections | App.tsx:50-53 | succeeds exactly when every category has an option, and then selects the first option of each category, in category order |
| App.UpdateSelections | App.tsx:62-68 | entries of the chosen category get the new option; every other entry is unchanged, and the length is kept |
| App.UpdateKeepsCategories | App.tsx:62-68 | every entry keeps its position and its category |
| App.UpdateUnknownCategory | App.tsx:62-68 | choosing an option of a category that has no entry leaves the selections unchanged |
| App.UpdateIdempotent | App.tsx:62-68 | choosing the same option twice is the same as choosing it once |
| App.UpdateShownBySelector | App.tsx:62-68 | after an option is chosen in a category that has an entry, the selector shows that option, and no other, as selected in that category |
| App.UpdateKeepsOtherCategories | App.tsx:62-68 | choosing an option in one category changes nothing the selector shows for any other category |
| App.ImproveTrail | App.tsx:38-60 | a run of handleImprovePrompt shows two or three states, one per synchronous stretch |
| App.AppStates | App.tsx:38-60 | the wizard states of a run, in order |
| App.ImproveRunOutcome | App.tsx:38-60 | the idea is recorded in every state; the run ends in FEATURES_READY exactly when refinement, suggestion and default selection all succeed, and then holds the trimmed refinement, the parsed categories and their first options; otherwise it ends in ERROR with the one generic message, so the invalid-format message is never shown |
| App.ImproveRunIsWalk | App.tsx:38-60 | started from INITIAL, every move of the run goes to the next state or into ERROR, so it never falls back to INITIAL; the run is therefore also a walk of the whole wizard, whose moves add the manual reset |
| App.ImproveRunKeepsValid | App.tsx:38-60 | every state of the run keeps the invariant: no leftover data on the initial screen, and one selection per category, in category order, from the feature screen on |
| App.FeatureChangeKeepsValid | App.tsx:62-68 | choosing an option keeps the invariant |
| App.GenerationKeepsValid | App.tsx:70-81 | generation from the feature screen keeps the invariant; it ends in UI_READY with the images or in ERROR with the generation message and the earlier images; the prompt and selections are unchanged |
| App.ResetAndFailKeepValid | App.tsx:22-36 | start over and failure both keep the invariant |
| App.RenderContent | App.tsx:83-142 | the loader shows the loading message; the feature screen shows the refined prompt and the selector for the current categories and selections; the gallery is the gallery component's tiles for the stored images, titled by position, with the refined prompt; the error screen shows the error message |
| App.RenderedGalleryTitles | App.tsx:114-117 | for images generated for the screen list, the shown gallery titles every tile after its screen when the login screen was generated; without it, the dashboard image is shown as "Login Screen" |
| App.OfferedActions | App.tsx:83-142 | the prompt input is offered only in INITIAL; options and "Proceed to Generation" only in FEATURES_READY; "Start Over" only in UI_READY and ERROR; the three loading states show only the loader |
| App.Wizard.constructor | App.tsx:13-20 | the wizard starts in INITIAL with every data field empty |
| App.Wizard.HandleStartOver | App.tsx:22-31 | back to the initial state with every field cleared |
| App.Wizard.HandleError | App.tsx:33-36 | ERROR with the message; every other field is left as it was |
| App.Wizard.StartImprovingStep | App.tsx:39-41 | records the idea and shows the first loading message in IMPROVING_PROMPT |
| App.Wizard.ImproveSettledStep | App.tsx:43-46 | stores the refinement and moves to SUGGESTING_FEATURES, or fails with the generic message |
| App.Wizard.FeaturesSettledStep | App.tsx:47-58 | stores the categories, then the default selections, and moves to FEATURES_READY; a failed suggestion, or a category with no option, ends in ERROR |
| App.Wizard.HandleImprovePrompt | App.tsx:38-60 | ends in the last state of the run that ImproveRunOutcome describes |
| App.Wizard.HandleFeatureChange | App.tsx:62-68 | only the selections change, by the selection updater |
| App.Wizard.HandleGenerateUI | App.tsx:70-81 | when every screen gets an image, UI_READY holds one image per screen, in screen order; otherwise the wizard ends in ERROR with the generation message |

## Left out

- The two remote services and their SDK: each call is a function parameter that answers or fails. Model names, temperature, response schema, image count, aspect ratio and MIME type are request configuration the model does not inspect.
- GeminiService.ImprovePrompt: the instruction text around the idea is kept only in part. The rest of the wording has no effect on what is proved.
- GeminiService.SuggestFeatures: the request text is kept only in part. The sentence asking for 2 to 4 mutually exclusive options per category (services/geminiService.ts:66) is left out of `SuggestInstruction`, and nothing proved depends on the wording.
- GeminiService.SuggestFeatures: `JSON.parse` is an oracle whose result type is a list of complete categories, so the oracle assumes the response schema is honoured. The source's `as FeatureCategory[]` cast (services/geminiService.ts:82) also lets through JSON that parses but has another shape: an object, a category without `options`, or an option without `name`. Such a value fails later at App.tsx:50-53 or shows `undefined`, and the model cannot express it. Within the model's type, the shape is not validated either (GeminiService.SuggestAcceptsOptionlessCategory).
- GeminiService.AwaitAll: Promise.all runs the requests concurrently and fails with the first rejection in time. The model takes them in index order, so when several requests are rejected the reason reported may differ. This makes no difference to the wizard, which shows one fixed message.
- The check that the API key is set when the module is loaded: it is configuration, outside any operation.
- Text.ToLower: lower-cases ASCII letters only. Full Unicode case mapping needs tables the model does not carry. The keywords compared against are ASCII.
- Text.NatToString: decimal rendering of non-negative integers only, which is all the gallery's `index + 1` needs.
- `console.error` logging, `e.preventDefault()`, the random placeholder text, CSS classes, the header, the loader's spinner and the icons: presentation and side effects with no effect on state.
- React's batching of setter calls, and re-renders between the stretches of one handler: each synchronous stretch is one atomic step.
- `useCallback` with empty dependencies and possible stale closures: these do not arise here, because handleImprovePrompt reads no state.
- Concurrent handlers, such as a second submission while one is in progress: the interface offers no action during loading (App.OfferedActions), so the model runs handlers one at a time.

## Checks the code does not make

The model follows the code in each of these cases.

- The 2 to 4 options per category are asked for only in the response schema's description (services/geminiService.ts:57) and in the request text (services/geminiService.ts:66). Nothing checks them: the parsed JSON is only cast (services/geminiService.ts:82). GeminiService.SuggestAcceptsOptionlessCategory shows that a category with no options passes. App.DefaultSelections then fails on it, and the wizard ends in ERROR after the categories are stored.
- A parse failure raises its own "invalid feature format" error (services/geminiService.ts:85), but App.tsx:58 replaces every failure with the one generic message, so the user never sees it (App.ImproveRunOutcome).
- The keyword tests lower-case the category and the option before searching (services/geminiService.ts:99). The model's lower-casing covers ASCII letters only (see Text.ToLower above).

## Findings

| source | as written | input that shows it | evidently intended | confidence | as-written member | corrected member |
|---|---|---|---|---|---|---|
| components/UIGallery.tsx:10-16, components/UIGallery.tsx:41 | tile titles are taken by position from a fixed five-entry list that assumes the login screen is always second | selections with no authentication category, or with one whose option says "No Login": four images are generated (splash, dashboard, main feature, settings), so the dashboard tile is titled "Login Screen", the main-feature tile "Home / Dashboard", the settings tile "Main Feature Screen", and no tile "Settings Screen" | each tile titled after the screen its image was generated for, in the order of services/geminiService.ts:89-122 | not executed | UIGallery.MislabelledWithoutLogin | UIGallery.IntendedTiles, UIGallery.IntendedTitlesMatch |

App.RenderContent shows the gallery as written, titled by position. App.RenderedGalleryTitles states what that means for the wizard's own screens: with the login screen present, the two labellings agree (UIGallery.TitlesMatchWithLogin); without it, the shift described above appears.
