// App.tsx: the wizard controller. Its eight pieces of React state are the
// fields of the class Wizard; `Snapshot` is their value at one moment. Every
// handler is split where the source awaits a remote call: each synchronous
// stretch of setter calls is one step function on snapshots, and the methods
// of Wizard are proved to leave exactly the snapshot those functions give.
// The remote calls reach the controller through the service functions,
// whose oracles are passed in as parameters.
module App {
  import opened Types
  import opened Text
  import opened GeminiService
  import FeatureSelector
  import UIGallery

  const ImprovingMessage: string := "Distilling your idea into a perfect prompt..."
  const SuggestingMessage: string := "Brainstorming potential app features..."
  const GeneratingMessage: string := "Generating UI mockups... This can take a minute."
  const ImproveErrorMessage: string := "Sorry, I had trouble improving the prompt. Please try again."
  const GenerateErrorMessage: string :=
    "An error occurred while generating the UI mockups. Please check your configuration and try again."

  // ---------------------------------------------------------------------------
  // Default selections and the selection updater

  /**
   * The default selections: the first option of every category, in category
   * order. `cat.options[0].name` throws on a category without options, so the
   * whole mapping fails (None) as soon as one category has none.
   */
  function DefaultSelections(categories: seq<FeatureCategory>): (r: Option<seq<SelectedFeature>>)
    ensures r.Some? <==> forall i :: 0 <= i < |categories| ==> |categories[i].options| > 0
    ensures r.Some? ==> |r.value| == |categories|
    ensures r.Some? ==> forall i :: 0 <= i < |categories| ==>
      r.value[i] == SelectedFeature(categories[i].category, categories[i].options[0].name)
  {
    if categories == [] then Some([])
    else if categories[0].options == [] then None
    else
      var rest := DefaultSelections(categories[1..]);
      if rest.None? then None
      else
        var r := [SelectedFeature(categories[0].category, categories[0].options[0].name)] + rest.value;
        assert forall i :: 1 <= i < |categories| ==> r[i] == rest.value[i - 1];
        Some(r)
  }

  /** The selection updater of handleFeatureChange: entries of the category get the new option, the others stay. */
  function UpdateSelections(prev: seq<SelectedFeature>, category: string, selectedOption: string): (next: seq<SelectedFeature>)
    ensures |next| == |prev|
    ensures forall i :: 0 <= i < |prev| ==>
      next[i] == (if prev[i].category == category then prev[i].(selectedOption := selectedOption) else prev[i])
  {
    seq(|prev|, i requires 0 <= i < |prev| =>
      if prev[i].category == category then prev[i].(selectedOption := selectedOption) else prev[i])
  }

  /** Every entry keeps its position and its category. */
  lemma UpdateKeepsCategories(prev: seq<SelectedFeature>, category: string, selectedOption: string)
    ensures var next := UpdateSelections(prev, category, selectedOption);
      && |next| == |prev|
      && forall i :: 0 <= i < |prev| ==> next[i].category == prev[i].category
  {
  }

  /** Choosing an option of a category nobody selected leaves the selections as they were. */
  lemma UpdateUnknownCategory(prev: seq<SelectedFeature>, category: string, selectedOption: string)
    requires forall i :: 0 <= i < |prev| ==> prev[i].category != category
    ensures UpdateSelections(prev, category, selectedOption) == prev
  {
  }

  /** Choosing the same option twice is the same as choosing it once. */
  lemma UpdateIdempotent(prev: seq<SelectedFeature>, category: string, selectedOption: string)
    ensures var once := UpdateSelections(prev, category, selectedOption);
      UpdateSelections(once, category, selectedOption) == once
  {
  }

  /**
   * Seen through the selector: after choosing `selectedOption` in a category
   * that has an entry, that option and no other is shown as selected in it.
   */
  lemma {:induction false} UpdateShownBySelector(prev: seq<SelectedFeature>, category: string, selectedOption: string,
                                                  optionName: string)
    requires exists i :: 0 <= i < |prev| && prev[i].category == category
    ensures FeatureSelector.IsSelected(UpdateSelections(prev, category, selectedOption), category, optionName)
            <==> optionName == selectedOption
  {
    var next := UpdateSelections(prev, category, selectedOption);
    var i :| 0 <= i < |prev| && prev[i].category == category;
    var k := FirstOf(prev, category, i);
    assert FeatureSelector.FirstEntryOf(next, category, k);
    if FeatureSelector.IsSelected(next, category, optionName) {
      var m :| FeatureSelector.FirstEntryOf(next, category, m) && next[m].selectedOption == optionName;
      assert m == k;
    }
  }

  /** Choosing an option in one category changes nothing the selector shows for any other category. */
  lemma UpdateKeepsOtherCategories(prev: seq<SelectedFeature>, category: string, selectedOption: string,
                                   other: string, optionName: string)
    requires other != category
    ensures FeatureSelector.IsSelected(UpdateSelections(prev, category, selectedOption), other, optionName)
            <==> FeatureSelector.IsSelected(prev, other, optionName)
  {
    var next := UpdateSelections(prev, category, selectedOption);
    assert forall j :: 0 <= j < |prev| && prev[j].category == other ==> next[j] == prev[j];
    UpdateKeepsCategories(prev, category, selectedOption);
  }

  /** The least index at or below `i` holding an entry of the category. */
  lemma {:induction false} FirstOf(s: seq<SelectedFeature>, category: string, i: nat) returns (k: nat)
    requires i < |s| && s[i].category == category
    ensures FeatureSelector.FirstEntryOf(s, category, k)
    decreases i
  {
    if j :| 0 <= j < i && s[j].category == category {
      k := FirstOf(s, category, j);
    } else {
      k := i;
    }
  }

  /** Selection entry i belongs to category i, for every category. */
  predicate Aligned(categories: seq<FeatureCategory>, selections: seq<SelectedFeature>)
  {
    && |selections| == |categories|
    && forall i :: 0 <= i < |categories| ==> selections[i].category == categories[i].category
  }

  // ---------------------------------------------------------------------------
  // The wizard state and its steps

  /** The eight state fields of the wizard at one moment. */
  datatype Snapshot = Snapshot(
    appState: AppState,
    initialPrompt: string,
    improvedPrompt: string,
    featureCategories: seq<FeatureCategory>,
    selectedFeatures: seq<SelectedFeature>,
    generatedImages: seq<string>,
    loadingMessage: string,
    errorMessage: string)

  /** The initial state, which handleStartOver restores. */
  const Cleared: Snapshot := Snapshot(INITIAL, "", "", [], [], [], "", "")

  /**
   * The wizard's invariant: the initial screen carries no leftover data, and
   * from the feature screen on there is exactly one selection per category.
   */
  predicate Valid(s: Snapshot)
  {
    && (s.appState == INITIAL ==> s == Cleared)
    && (s.appState == FEATURES_READY || s.appState == GENERATING_UI || s.appState == UI_READY ==>
          Aligned(s.featureCategories, s.selectedFeatures))
  }

  /** handleError: the ERROR state with the message; every other field is left as it was. */
  function Fail(s: Snapshot, message: string): Snapshot
  {
    s.(appState := ERROR, errorMessage := message)
  }

  /** handleImprovePrompt up to its first await: record the idea and show the first loading message. */
  function StartImproving(s: Snapshot, prompt: string): Snapshot
  {
    s.(initialPrompt := prompt, appState := IMPROVING_PROMPT, loadingMessage := ImprovingMessage)
  }

  /** handleImprovePrompt once improvePrompt has settled: store the refined prompt and show the second loading message. */
  function ImproveSettled(s: Snapshot, improved: Result<string>): Snapshot
  {
    match improved
    case Failure(_) => Fail(s, ImproveErrorMessage)
    case Success(p) => s.(improvedPrompt := p, appState := SUGGESTING_FEATURES, loadingMessage := SuggestingMessage)
  }

  /**
   * handleImprovePrompt once suggestFeatures has settled: store the
   * categories, then select the first option of each; a category without
   * options throws after the categories are stored.
   */
  function FeaturesSettled(s: Snapshot, features: Result<seq<FeatureCategory>>): Snapshot
  {
    match features
    case Failure(_) => Fail(s, ImproveErrorMessage)
    case Success(categories) =>
      match DefaultSelections(categories)
      case None => Fail(s.(featureCategories := categories), ImproveErrorMessage)
      case Some(defaults) => s.(featureCategories := categories, selectedFeatures := defaults, appState := FEATURES_READY)
  }

  /** The states a run of handleImprovePrompt shows, in order: one per synchronous stretch. */
  function ImproveTrail(s: Snapshot, prompt: string, generateContent: string -> Result<string>,
                        parseJson: string -> Option<seq<FeatureCategory>>): (trail: seq<Snapshot>)
    ensures 2 <= |trail| <= 3
  {
    var started := StartImproving(s, prompt);
    var improved := ImprovePrompt(prompt, generateContent);
    var refined := ImproveSettled(started, improved);
    if improved.Failure? then [started, refined]
    else [started, refined, FeaturesSettled(refined, SuggestFeatures(improved.value, generateContent, parseJson))]
  }

  function Last(trail: seq<Snapshot>): Snapshot
    requires trail != []
  {
    trail[|trail| - 1]
  }

  function AppStates(trail: seq<Snapshot>): (states: seq<AppState>)
    ensures |states| == |trail|
    ensures forall i :: 0 <= i < |trail| ==> states[i] == trail[i].appState
  {
    seq(|trail|, i requires 0 <= i < |trail| => trail[i].appState)
  }

  /**
   * A run of handleImprovePrompt: the idea is recorded in every state it
   * shows; it ends in FEATURES_READY exactly when the refinement, the
   * suggestion and the default selection all succeed, and then holds the
   * trimmed refinement, the parsed categories and their first options;
   * otherwise it ends in ERROR, with the same message whichever step failed,
   * and the invalid-format message of suggestFeatures is never shown.
   */
  lemma ImproveRunOutcome(s: Snapshot, prompt: string, generateContent: string -> Result<string>,
                          parseJson: string -> Option<seq<FeatureCategory>>)
    ensures var trail := ImproveTrail(s, prompt, generateContent, parseJson);
      && (forall i :: 0 <= i < |trail| ==> trail[i].initialPrompt == prompt)
      && trail[0].appState == IMPROVING_PROMPT
      && (Last(trail).appState == FEATURES_READY || Last(trail).appState == ERROR)
      && (Last(trail).appState == ERROR ==> Last(trail).errorMessage == ImproveErrorMessage != InvalidFeatureFormat)
    ensures var trail := ImproveTrail(s, prompt, generateContent, parseJson);
      var answer := generateContent(ImproveRequest(prompt));
      Last(trail).appState == FEATURES_READY <==>
        && answer.Success?
        && SuggestFeatures(Trim(answer.value), generateContent, parseJson).Success?
        && DefaultSelections(SuggestFeatures(Trim(answer.value), generateContent, parseJson).value).Some?
    ensures var trail := ImproveTrail(s, prompt, generateContent, parseJson);
      var answer := generateContent(ImproveRequest(prompt));
      Last(trail).appState == FEATURES_READY ==>
        var categories := SuggestFeatures(Trim(answer.value), generateContent, parseJson).value;
        && |trail| == 3
        && trail[1].appState == SUGGESTING_FEATURES
        && trail[1].improvedPrompt == Trim(answer.value)
        && Last(trail).improvedPrompt == Trim(answer.value)
        && Last(trail).featureCategories == categories
        && Last(trail).selectedFeatures == DefaultSelections(categories).value
  {
  }

  /**
   * Started from the initial screen, a run of handleImprovePrompt only moves
   * forward, one state at a time or into ERROR; it never falls back to INITIAL.
   */
  lemma ImproveRunIsWalk(s: Snapshot, prompt: string, generateContent: string -> Result<string>,
                         parseJson: string -> Option<seq<FeatureCategory>>)
    requires s.appState == INITIAL
    ensures IsForwardRun([s.appState] + AppStates(ImproveTrail(s, prompt, generateContent, parseJson)))
    ensures IsWizardWalk([s.appState] + AppStates(ImproveTrail(s, prompt, generateContent, parseJson)))
  {
    var states := [s.appState] + AppStates(ImproveTrail(s, prompt, generateContent, parseJson));
    assert states[1] == IMPROVING_PROMPT;
    assert forall i :: 1 < i < |states| ==> states[i] == ERROR || Ordinal(states[i]) == i;
  }

  /** A run of handleImprovePrompt keeps the invariant. */
  lemma ImproveRunKeepsValid(s: Snapshot, prompt: string, generateContent: string -> Result<string>,
                             parseJson: string -> Option<seq<FeatureCategory>>)
    requires Valid(s)
    ensures forall t :: t in ImproveTrail(s, prompt, generateContent, parseJson) ==> Valid(t)
  {
  }

  /** handleFeatureChange: only the selections change, by the selection updater. */
  function FeatureChanged(s: Snapshot, category: string, selectedOption: string): Snapshot
  {
    s.(selectedFeatures := UpdateSelections(s.selectedFeatures, category, selectedOption))
  }

  /** Choosing an option keeps the invariant, on the initial screen included. */
  lemma FeatureChangeKeepsValid(s: Snapshot, category: string, selectedOption: string)
    requires Valid(s)
    ensures Valid(FeatureChanged(s, category, selectedOption))
  {
    UpdateKeepsCategories(s.selectedFeatures, category, selectedOption);
  }

  /** handleGenerateUI up to its await: the generation loader. */
  function StartGenerating(s: Snapshot): Snapshot
  {
    s.(appState := GENERATING_UI, loadingMessage := GeneratingMessage)
  }

  /** handleGenerateUI once generateUiMockups has settled: the gallery with the images, or the generation error. */
  function GenerationSettled(s: Snapshot, images: Result<seq<string>>): Snapshot
  {
    match images
    case Failure(_) => Fail(s, GenerateErrorMessage)
    case Success(generated) => s.(generatedImages := generated, appState := UI_READY)
  }

  /**
   * Generation from the feature screen keeps the invariant and ends in the
   * gallery with the images or in ERROR with the generation message and the
   * earlier images; the prompt and the selections it used stay as they were.
   */
  lemma GenerationKeepsValid(s: Snapshot, images: Result<seq<string>>)
    requires Valid(s) && s.appState == FEATURES_READY
    ensures Valid(StartGenerating(s)) && Valid(GenerationSettled(StartGenerating(s), images))
    ensures var t := GenerationSettled(StartGenerating(s), images);
      && t.improvedPrompt == s.improvedPrompt && t.selectedFeatures == s.selectedFeatures
      && (images.Success? ==> t.appState == UI_READY && t.generatedImages == images.value)
      && (images.Failure? ==> t.appState == ERROR && t.errorMessage == GenerateErrorMessage
                              && t.generatedImages == s.generatedImages)
  {
  }

  /** handleStartOver and handleError keep the invariant. */
  lemma ResetAndFailKeepValid(s: Snapshot, message: string)
    requires Valid(s)
    ensures Valid(Cleared) && Valid(Fail(s, message))
  {
  }

  // ---------------------------------------------------------------------------
  // renderContent

  /** What `renderContent` shows for a state. */
  datatype View =
    | PromptInputView
    | LoaderView(message: string)
    | FeaturesView(improvedPrompt: string, cards: seq<FeatureSelector.CardView>)
    | GalleryView(tiles: seq<UIGallery.Tile>, prompt: string)
    | ErrorView(message: string)

  /** The user actions a view offers. */
  datatype Action = SubmitPrompt | ChooseOption | ProceedToGeneration | StartOver

  function Offered(view: View): set<Action>
  {
    match view
    case PromptInputView => {SubmitPrompt}
    case LoaderView(_) => {}
    case FeaturesView(_, _) => {ChooseOption, ProceedToGeneration}
    case GalleryView(_, _) => {StartOver}
    case ErrorView(_) => {StartOver}
  }

  /** renderContent: the view for each state. */
  function RenderContent(s: Snapshot): (view: View)
    ensures view.LoaderView? ==> view.message == s.loadingMessage
    ensures view.FeaturesView? ==>
      view.improvedPrompt == s.improvedPrompt && view.cards == FeatureSelector.Render(s.featureCategories, s.selectedFeatures)
    ensures view.GalleryView? ==> view.prompt == s.improvedPrompt
    ensures view.GalleryView? ==> view.tiles == UIGallery.Tiles(s.generatedImages)
    ensures view.ErrorView? ==> view.message == s.errorMessage
  {
    match s.appState
    case INITIAL => PromptInputView
    case IMPROVING_PROMPT => LoaderView(s.loadingMessage)
    case SUGGESTING_FEATURES => LoaderView(s.loadingMessage)
    case GENERATING_UI => LoaderView(s.loadingMessage)
    case FEATURES_READY => FeaturesView(s.improvedPrompt, FeatureSelector.Render(s.featureCategories, s.selectedFeatures))
    case UI_READY =>
      GalleryView(UIGallery.Tiles(s.generatedImages), s.improvedPrompt)
    case ERROR => ErrorView(s.errorMessage)
  }

  /**
   * The actions offered in each state: the prompt input only at the start,
   * the options and "Proceed to Generation" only with the features ready,
   * "Start Over" only in the gallery and on the error screen, and only the
   * loader, with no action, in the three loading states.
   */
  lemma OfferedActions(s: Snapshot)
    ensures SubmitPrompt in Offered(RenderContent(s)) <==> s.appState == INITIAL
    ensures ProceedToGeneration in Offered(RenderContent(s)) <==> s.appState == FEATURES_READY
    ensures ChooseOption in Offered(RenderContent(s)) <==> s.appState == FEATURES_READY
    ensures StartOver in Offered(RenderContent(s)) <==> s.appState == UI_READY || s.appState == ERROR
    ensures RenderContent(s).LoaderView? <==>
      s.appState == IMPROVING_PROMPT || s.appState == SUGGESTING_FEATURES || s.appState == GENERATING_UI
    ensures RenderContent(s).LoaderView? ==> Offered(RenderContent(s)) == {}
  {
  }

  /**
   * The gallery the wizard shows, read against the screens its images were
   * generated for: with the login screen, every tile is titled after its
   * screen, as the corrected labelling would title it; without it, the
   * dashboard image is shown under the title "Login Screen".
   */
  lemma RenderedGalleryTitles(s: Snapshot)
    requires s.appState == UI_READY
    requires |s.generatedImages| == |ScreenPlan(s.improvedPrompt, s.selectedFeatures)|
    ensures IncludesLogin(s.selectedFeatures) ==>
      RenderContent(s).tiles == UIGallery.IntendedTiles(s.generatedImages, UIGallery.ScreenNames(ScreenPlan(s.improvedPrompt, s.selectedFeatures)))
    ensures !IncludesLogin(s.selectedFeatures) ==>
      && ScreenPlan(s.improvedPrompt, s.selectedFeatures)[1].name == HomeName
      && RenderContent(s).tiles[1].title == LoginName
  {
    var plan := ScreenPlan(s.improvedPrompt, s.selectedFeatures);
    if IncludesLogin(s.selectedFeatures) {
      UIGallery.TitlesMatchWithLogin(s.improvedPrompt, s.selectedFeatures, s.generatedImages);
      var names := UIGallery.ScreenNames(plan);
      var shown := UIGallery.Tiles(s.generatedImages);
      var intended := UIGallery.IntendedTiles(s.generatedImages, names);
      forall i | 0 <= i < |shown|
        ensures shown[i] == intended[i]
      {
        assert intended[i] == shown[i].(title := UIGallery.IntendedTitle(names, i));
      }
    } else {
      UIGallery.MislabelledWithoutLogin(s.improvedPrompt, s.selectedFeatures, s.generatedImages);
    }
  }

  // ---------------------------------------------------------------------------
  // The controller

  class Wizard {
    var appState: AppState
    var initialPrompt: string
    var improvedPrompt: string
    var featureCategories: seq<FeatureCategory>
    var selectedFeatures: seq<SelectedFeature>
    var generatedImages: seq<string>
    var loadingMessage: string
    var errorMessage: string

    function State(): Snapshot
      reads this
    {
      Snapshot(appState, initialPrompt, improvedPrompt, featureCategories, selectedFeatures,
               generatedImages, loadingMessage, errorMessage)
    }

    constructor ()
      ensures State() == Cleared
    {
      appState := INITIAL;
      initialPrompt := "";
      improvedPrompt := "";
      featureCategories := [];
      selectedFeatures := [];
      generatedImages := [];
      loadingMessage := "";
      errorMessage := "";
    }

    /** handleStartOver: back to INITIAL with every data field emptied. */
    method HandleStartOver()
      modifies this
      ensures State() == Cleared
    {
      appState := INITIAL;
      initialPrompt := "";
      improvedPrompt := "";
      featureCategories := [];
      selectedFeatures := [];
      generatedImages := [];
      loadingMessage := "";
      errorMessage := "";
    }

    /** handleError. */
    method HandleError(message: string)
      modifies this
      ensures State() == Fail(old(State()), message)
    {
      appState := ERROR;
      errorMessage := message;
    }

    /** The synchronous start of handleImprovePrompt. */
    method StartImprovingStep(prompt: string)
      modifies this
      ensures State() == StartImproving(old(State()), prompt)
    {
      initialPrompt := prompt;
      appState := IMPROVING_PROMPT;
      loadingMessage := ImprovingMessage;
    }

    /** The stretch of handleImprovePrompt after improvePrompt settles. */
    method ImproveSettledStep(improved: Result<string>)
      modifies this
      ensures State() == ImproveSettled(old(State()), improved)
    {
      if improved.Failure? {
        HandleError(ImproveErrorMessage);
      } else {
        improvedPrompt := improved.value;
        appState := SUGGESTING_FEATURES;
        loadingMessage := SuggestingMessage;
      }
    }

    /** The stretch of handleImprovePrompt after suggestFeatures settles. */
    method FeaturesSettledStep(features: Result<seq<FeatureCategory>>)
      modifies this
      ensures State() == FeaturesSettled(old(State()), features)
    {
      if features.Failure? {
        HandleError(ImproveErrorMessage);
        return;
      }
      featureCategories := features.value;
      var defaultSelections := DefaultSelections(features.value);
      if defaultSelections.None? {
        HandleError(ImproveErrorMessage);
        return;
      }
      selectedFeatures := defaultSelections.value;
      appState := FEATURES_READY;
    }

    /**
     * handleImprovePrompt: the idea is refined, then feature categories are
     * requested for the refinement; the wizard passes through the states of
     * ImproveTrail and ends in its last one.
     */
    method HandleImprovePrompt(prompt: string, generateContent: string -> Result<string>,
                               parseJson: string -> Option<seq<FeatureCategory>>)
      modifies this
      ensures State() == Last(ImproveTrail(old(State()), prompt, generateContent, parseJson))
    {
      StartImprovingStep(prompt);
      var improved := ImprovePrompt(prompt, generateContent);
      ImproveSettledStep(improved);
      if improved.Success? {
        var features := SuggestFeatures(improved.value, generateContent, parseJson);
        FeaturesSettledStep(features);
      }
    }

    /** handleFeatureChange. */
    method HandleFeatureChange(category: string, selectedOption: string)
      modifies this
      ensures State() == FeatureChanged(old(State()), category, selectedOption)
    {
      selectedFeatures := UpdateSelections(selectedFeatures, category, selectedOption);
    }

    /**
     * handleGenerateUI: one image per screen of the screen list for the
     * improved prompt and the current selections. When every screen gets an
     * image, the images are stored in screen order and the gallery is shown;
     * otherwise the wizard ends in ERROR with the generation message.
     */
    method HandleGenerateUI(generateImages: string -> ImageResponse)
      modifies this
      ensures var started := StartGenerating(old(State()));
        var screens := ScreenPlan(started.improvedPrompt, started.selectedFeatures);
        && (AllUsable(screens, generateImages) ==>
              && State() == GenerationSettled(started, Success(generatedImages))
              && FirstImagesOf(generatedImages, screens, generateImages))
        && (!AllUsable(screens, generateImages) ==> State() == Fail(started, GenerateErrorMessage))
    {
      appState := GENERATING_UI;
      loadingMessage := GeneratingMessage;
      var images := GenerateUiMockups(improvedPrompt, selectedFeatures, generateImages);
      if images.Failure? {
        HandleError(GenerateErrorMessage);
      } else {
        generatedImages := images.value;
        appState := UI_READY;
      }
    }
  }
}
