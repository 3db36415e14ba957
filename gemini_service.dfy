// services/geminiService.ts: what the wizard asks the generative service for
// and how it turns the answers into results or errors. The service itself is
// not modelled: each remote call is a function parameter (an oracle) that
// either answers or fails.
module GeminiService {
  import opened Types
  import opened Text
  import opened ArrayOps

  /** One entry of the screen list: the screen's name and the prompt sent for it. */
  datatype ScreenPrompt = ScreenPrompt(name: string, prompt: string)

  /** One generated image as the image service returns it: base64 text. */
  datatype GeneratedImage = GeneratedImage(imageBytes: string)

  /**
   * What one image request yields: the request is rejected, or it resolves to
   * a response whose `generatedImages` list may be absent or empty.
   */
  datatype ImageResponse = Rejected(reason: string) | Resolved(generatedImages: Option<seq<GeneratedImage>>)

  const InvalidFeatureFormat: string := "The AI returned an invalid feature format."
  const ImageGenerationFailed: string := "Image generation failed for one of the screens."

  const SplashName: string := "Splash Screen"
  const LoginName: string := "Login Screen"
  const HomeName: string := "Home/Dashboard"
  const MainFeatureName: string := "Main Feature Screen"
  const SettingsName: string := "Settings Screen"

  // ---------------------------------------------------------------------------
  // improvePrompt and suggestFeatures

  const ImproveInstruction: string :=
    "You are a world-class prompt engineer for an AI image generation model that creates UI/UX mockups. Original idea: \""
  const ImproveTrailer: string := "\"\n\nRefined Prompt:"

  /** The text sent to refine a raw idea: constant instructions around the idea. */
  function ImproveRequest(prompt: string): string
  {
    ImproveInstruction + prompt + ImproveTrailer
  }

  /**
   * improvePrompt: a failed call propagates its error; a successful one
   * yields the response text with surrounding white space removed.
   */
  function ImprovePrompt(prompt: string, generateContent: string -> Result<string>): (r: Result<string>)
    ensures var answer := generateContent(ImproveRequest(prompt));
      && (answer.Success? ==> r == Success(Trim(answer.value)))
      && (answer.Failure? ==> r == Failure(answer.error))
  {
    match generateContent(ImproveRequest(prompt))
    case Success(text) => Success(Trim(text))
    case Failure(e) => Failure(e)
  }

  /** The text sent to ask for feature categories. */
  const SuggestInstruction: string :=
    "Based on the following mobile app description, generate a list of key, customizable features.\n\nApp Description: \""
  const SuggestTrailer: string := "\""

  function SuggestRequest(improvedPrompt: string): string
  {
    SuggestInstruction + improvedPrompt + SuggestTrailer
  }

  /**
   * suggestFeatures: a failed call propagates its error; text that does not
   * parse raises the invalid-format error; parsed text is returned as it is,
   * without checking the shape of the categories.
   */
  function SuggestFeatures(improvedPrompt: string, generateContent: string -> Result<string>,
                           parseJson: string -> Option<seq<FeatureCategory>>): (r: Result<seq<FeatureCategory>>)
    ensures generateContent(SuggestRequest(improvedPrompt)).Failure? ==>
      r == Failure(generateContent(SuggestRequest(improvedPrompt)).error)
    ensures generateContent(SuggestRequest(improvedPrompt)).Success? ==>
      var parsed := parseJson(generateContent(SuggestRequest(improvedPrompt)).value);
      && (parsed.None? ==> r == Failure(InvalidFeatureFormat))
      && (parsed.Some? ==> r == Success(parsed.value))
  {
    match generateContent(SuggestRequest(improvedPrompt))
    case Failure(e) => Failure(e)
    case Success(text) =>
      match parseJson(text)
      case None => Failure(InvalidFeatureFormat)
      case Some(categories) => Success(categories)
  }

  /** Nothing checks the parsed categories: a category without options is accepted. */
  lemma SuggestAcceptsOptionlessCategory(improvedPrompt: string, text: string, name: string)
    ensures var cats := [FeatureCategory(name, "", [])];
      SuggestFeatures(improvedPrompt, _ => Success(text), _ => Some(cats)) == Success(cats)
  {
  }

  // ---------------------------------------------------------------------------
  // getScreenGenerationPrompts

  /** One "category: selectedOption" entry of the feature summary. */
  function SummaryEntry(f: SelectedFeature): string
  {
    f.category + ": " + f.selectedOption
  }

  function SummaryEntries(features: seq<SelectedFeature>): (entries: seq<string>)
    ensures |entries| == |features|
    ensures forall i :: 0 <= i < |features| ==> entries[i] == SummaryEntry(features[i])
  {
    seq(|features|, i requires 0 <= i < |features| => SummaryEntry(features[i]))
  }

  /** The feature summary interpolated into every screen prompt. */
  function FeatureSummary(features: seq<SelectedFeature>): string
  {
    Join(SummaryEntries(features), ", ")
  }

  /** The summary lists the selections in input order, separated by ", ". */
  lemma FeatureSummaryInOrder(features: seq<SelectedFeature>, f: SelectedFeature)
    ensures FeatureSummary([]) == ""
    ensures FeatureSummary(features + [f]) ==
      if features == [] then SummaryEntry(f) else FeatureSummary(features) + ", " + SummaryEntry(f)
  {
    assert SummaryEntries(features + [f]) == SummaryEntries(features) + [SummaryEntry(f)];
    JoinSnoc(SummaryEntries(features), SummaryEntry(f), ", ");
  }

  /** Every selection appears in the summary as "category: selectedOption". */
  lemma FeatureSummaryMentionsEach(features: seq<SelectedFeature>, k: nat)
    requires k < |features|
    ensures Includes(FeatureSummary(features), SummaryEntry(features[k]))
  {
    JoinIncludesParts(SummaryEntries(features), ", ", k);
    var a, b :| FeatureSummary(features) == a + SummaryEntries(features)[k] + b;
    IncludesInfix(a, SummaryEntry(features[k]), b);
  }

  const AuthenticationKeyword: string := "authentication"
  const NoLoginKeyword: string := "no login"
  const Undefined: string := "undefined"

  /** The category names an authentication feature (compared in lower case). */
  predicate IsAuthCategory(f: SelectedFeature)
  {
    Includes(ToLower(f.category), AuthenticationKeyword)
  }

  /** An authentication selection that does not opt out of logging in. */
  predicate WantsLogin(f: SelectedFeature)
  {
    IsAuthCategory(f) && !Includes(ToLower(f.selectedOption), NoLoginKeyword)
  }

  /** The login-screen condition: `features.some(...)`. */
  function IncludesLogin(features: seq<SelectedFeature>): bool
  {
    AnyMatch(features, WantsLogin)
  }

  /**
   * The text interpolated as the authentication method: the option of the
   * first authentication selection, or "undefined" when there is none.
   */
  function AuthMethod(features: seq<SelectedFeature>): string
  {
    match FindFirst(features, IsAuthCategory)
    case Some(f) => f.selectedOption
    case None => Undefined
  }

  /** A screen prompt interpolates the base prompt and then the summary. */
  predicate CarriesContext(prompt: string, basePrompt: string, summary: string)
  {
    Includes(prompt, basePrompt) && Includes(prompt, summary)
  }

  /**
   * A prompt template with two holes, the base prompt and the feature summary;
   * the surrounding wording is kept as three constant pieces.
   */
  datatype Template = Template(pre: string, mid: string, post: string)

  function Fill(t: Template, basePrompt: string, summary: string): string
  {
    t.pre + basePrompt + t.mid + summary + t.post
  }

  /** Whatever the wording, a filled template contains both of its holes. */
  lemma FillCarriesContext(t: Template, basePrompt: string, summary: string)
    ensures CarriesContext(Fill(t, basePrompt, summary), basePrompt, summary)
  {
    var p := Fill(t, basePrompt, summary);
    assert p == t.pre + basePrompt + (t.mid + summary + t.post);
    IncludesInfix(t.pre, basePrompt, t.mid + summary + t.post);
    assert p == (t.pre + basePrompt + t.mid) + summary + t.post;
    IncludesInfix(t.pre + basePrompt + t.mid, summary, t.post);
  }

  const SplashTemplate: Template := Template(
    "UI/UX design of a mobile app splash screen. App concept: ",
    ". Features: ",
    ". Visual style: modern, clean, minimalist, high fidelity, figma mockup, vibrant branding.")

  const HomeTemplate: Template := Template(
    "UI/UX design of the main home/dashboard screen for a mobile app. App concept: ",
    ". Key features visible: ",
    ". Visual style: modern, clean, data-centric, minimalist, high fidelity, figma mockup, user-friendly.")

  const MainFeatureTemplate: Template := Template(
    "UI/UX design of the primary feature screen for a mobile app. App concept: ",
    ". This screen showcases the core functionality related to ",
    ". Visual style: modern, clean, task-oriented, minimalist, high fidelity, figma mockup, efficient workflow.")

  const SettingsTemplate: Template := Template(
    "UI/UX design of a settings screen for a mobile app. App concept: ",
    ". Features included: ",
    ". Options should include profile management, notifications, and help/support. Visual style: modern, clean, organized, minimalist, high fidelity, figma mockup, clear and accessible.")

  const LoginPre: string := "UI/UX design of a mobile app login screen. App concept: "
  const LoginAuthLabel: string := ". Authentication method: "
  const LoginFeaturesLabel: string := ". Features: "
  const LoginPost: string := ". Visual style: modern, clean, minimalist, high fidelity, figma mockup, secure, intuitive."

  /** The login template has a third hole, the authentication method, inside its middle piece. */
  function LoginTemplate(authMethod: string): Template
  {
    Template(LoginPre, LoginAuthLabel + authMethod + LoginFeaturesLabel, LoginPost)
  }

  /** A piece of a template's middle text reaches the filled prompt. */
  lemma FillCarriesMiddlePiece(t: Template, basePrompt: string, summary: string, before: string, piece: string, after: string)
    requires t.mid == before + piece + after
    ensures Includes(Fill(t, basePrompt, summary), piece)
  {
    var lead := t.pre + basePrompt + before;
    var tail := after + summary + t.post;
    assert Fill(t, basePrompt, summary) == lead + piece + tail;
    IncludesInfix(lead, piece, tail);
  }

  /** The login prompt contains the authentication method it was given. */
  lemma LoginPromptCarriesAuthMethod(basePrompt: string, authMethod: string, summary: string)
    ensures Includes(Fill(LoginTemplate(authMethod), basePrompt, summary), authMethod)
  {
    FillCarriesMiddlePiece(LoginTemplate(authMethod), basePrompt, summary, LoginAuthLabel, authMethod, LoginFeaturesLabel);
  }

  /** The screen list getScreenGenerationPrompts returns, as one value. */
  function ScreenPlan(basePrompt: string, features: seq<SelectedFeature>): seq<ScreenPrompt>
  {
    var summary := FeatureSummary(features);
    [ScreenPrompt(SplashName, Fill(SplashTemplate, basePrompt, summary))]
    + (if IncludesLogin(features) then [ScreenPrompt(LoginName, Fill(LoginTemplate(AuthMethod(features)), basePrompt, summary))] else [])
    + [ScreenPrompt(HomeName, Fill(HomeTemplate, basePrompt, summary)),
       ScreenPrompt(MainFeatureName, Fill(MainFeatureTemplate, basePrompt, summary)),
       ScreenPrompt(SettingsName, Fill(SettingsTemplate, basePrompt, summary))]
  }

  /** getScreenGenerationPrompts: starts the list with the splash screen and pushes the others in turn. */
  method GetScreenGenerationPrompts(basePrompt: string, features: seq<SelectedFeature>) returns (screenPrompts: seq<ScreenPrompt>)
    ensures screenPrompts == ScreenPlan(basePrompt, features)
  {
    var featureSummary := FeatureSummary(features);
    screenPrompts := [ScreenPrompt(SplashName, Fill(SplashTemplate, basePrompt, featureSummary))];
    if AnyMatch(features, WantsLogin) {
      var authMethod := AuthMethod(features);
      screenPrompts := screenPrompts + [ScreenPrompt(LoginName, Fill(LoginTemplate(authMethod), basePrompt, featureSummary))];
    }
    screenPrompts := screenPrompts + [ScreenPrompt(HomeName, Fill(HomeTemplate, basePrompt, featureSummary))];
    screenPrompts := screenPrompts + [ScreenPrompt(MainFeatureName, Fill(MainFeatureTemplate, basePrompt, featureSummary))];
    screenPrompts := screenPrompts + [ScreenPrompt(SettingsName, Fill(SettingsTemplate, basePrompt, featureSummary))];
  }

  /**
   * The list starts with the splash screen and ends with the dashboard, main
   * feature and settings screens; the login screen, second when present, is
   * there exactly when some selection names an authentication category with
   * an option that does not say "no login".
   */
  lemma ScreenPlanShape(basePrompt: string, features: seq<SelectedFeature>)
    ensures var plan := ScreenPlan(basePrompt, features);
      && |plan| == (if IncludesLogin(features) then 5 else 4)
      && plan[0].name == SplashName
      && plan[|plan| - 3].name == HomeName
      && plan[|plan| - 2].name == MainFeatureName
      && plan[|plan| - 1].name == SettingsName
      && (IncludesLogin(features) ==> plan[1].name == LoginName)
    ensures (exists k :: 0 <= k < |ScreenPlan(basePrompt, features)| && ScreenPlan(basePrompt, features)[k].name == LoginName)
      <==> exists i :: 0 <= i < |features| && IsAuthCategory(features[i]) && !Includes(ToLower(features[i].selectedOption), NoLoginKeyword)
  {
    var plan := ScreenPlan(basePrompt, features);
    assert SplashName != LoginName && HomeName != LoginName && MainFeatureName != LoginName && SettingsName != LoginName;
    if !IncludesLogin(features) {
      assert forall k :: 0 <= k < |plan| ==> plan[k].name != LoginName;
    }
  }

  /** Every screen prompt contains the base prompt and the whole feature summary. */
  lemma ScreenPromptsCarryContext(basePrompt: string, features: seq<SelectedFeature>, k: nat)
    requires k < |ScreenPlan(basePrompt, features)|
    ensures CarriesContext(ScreenPlan(basePrompt, features)[k].prompt, basePrompt, FeatureSummary(features))
  {
    var summary := FeatureSummary(features);
    var plan := ScreenPlan(basePrompt, features);
    var t: Template;
    if k == 0 {
      t := SplashTemplate;
    } else if IncludesLogin(features) && k == 1 {
      t := LoginTemplate(AuthMethod(features));
    } else if k == |plan| - 3 {
      t := HomeTemplate;
    } else if k == |plan| - 2 {
      t := MainFeatureTemplate;
    } else {
      t := SettingsTemplate;
    }
    assert plan[k].prompt == Fill(t, basePrompt, summary);
    FillCarriesContext(t, basePrompt, summary);
  }

  /**
   * The login prompt names the option of the FIRST authentication selection,
   * which exists whenever the login screen is included (so "undefined" never
   * reaches the prompt).
   */
  lemma LoginPromptNamesFirstAuthSelection(basePrompt: string, features: seq<SelectedFeature>)
    requires IncludesLogin(features)
    ensures exists i ::
      && 0 <= i < |features| && IsAuthCategory(features[i])
      && (forall j :: 0 <= j < i ==> !IsAuthCategory(features[j]))
      && ScreenPlan(basePrompt, features)[1].prompt
         == Fill(LoginTemplate(features[i].selectedOption), basePrompt, FeatureSummary(features))
  {
    var k := FirstAuthSelection(features);
    assert ScreenPlan(basePrompt, features)[1].prompt ==
      Fill(LoginTemplate(AuthMethod(features)), basePrompt, FeatureSummary(features));
  }

  /** When the login screen is included, the authentication method is the option of the first authentication entry. */
  lemma FirstAuthSelection(features: seq<SelectedFeature>) returns (k: nat)
    requires IncludesLogin(features)
    ensures k < |features| && IsAuthCategory(features[k])
    ensures forall j :: 0 <= j < k ==> !IsAuthCategory(features[j])
    ensures AuthMethod(features) == features[k].selectedOption
  {
    var i :| 0 <= i < |features| && WantsLogin(features[i]);
    assert IsAuthCategory(features[i]);
    var r := FindFirst(features, IsAuthCategory);
    k :| 0 <= k < |features| && features[k] == r.value && IsAuthCategory(features[k])
      && forall j :: 0 <= j < k ==> !IsAuthCategory(features[j]);
  }

  /**
   * The entry that names the authentication method need not be the one that
   * caused the login screen: an opted-out authentication entry placed first is
   * named, although only a later entry triggered the screen.
   */
  lemma AuthMethodMayComeFromOptedOutEntry(optedOut: SelectedFeature, login: SelectedFeature)
    requires IsAuthCategory(optedOut) && !WantsLogin(optedOut) && WantsLogin(login)
    ensures IncludesLogin([optedOut, login])
    ensures AuthMethod([optedOut, login]) == optedOut.selectedOption
  {
    assert WantsLogin([optedOut, login][1]);
  }

  // ---------------------------------------------------------------------------
  // generateUiMockups

  /** A response from which an image can be taken. */
  predicate HasImage(images: Option<seq<GeneratedImage>>)
  {
    images.Some? && |images.value| > 0
  }

  /**
   * Promise.all over the requests, taken in index order: the first rejected
   * request fails the whole step; otherwise every response's image list.
   */
  function AwaitAll(responses: seq<ImageResponse>): (r: Result<seq<Option<seq<GeneratedImage>>>>)
    ensures r.Success? <==> forall i :: 0 <= i < |responses| ==> responses[i].Resolved?
    ensures r.Success? ==> |r.value| == |responses|
    ensures r.Success? ==> forall i :: 0 <= i < |responses| ==> r.value[i] == responses[i].generatedImages
    ensures r.Failure? ==> exists i :: 0 <= i < |responses| && responses[i] == Rejected(r.error)
  {
    if responses == [] then Success([])
    else match responses[0]
      case Rejected(reason) => Failure(reason)
      case Resolved(images) =>
        var rest := AwaitAll(responses[1..]);
        if rest.Failure? then
          assert exists i :: 0 <= i < |responses| && responses[i] == Rejected(rest.error) by {
            var i :| 0 <= i < |responses| - 1 && responses[1..][i] == Rejected(rest.error);
            assert responses[i + 1] == Rejected(rest.error);
          }
          Failure(rest.error)
        else
          assert forall i :: 0 <= i < |responses| ==> responses[i].Resolved? by {
            forall i | 0 < i < |responses| ensures responses[i].Resolved? {
              assert responses[i] == responses[1..][i - 1];
            }
          }
          Success([images] + rest.value)
  }

  /**
   * `responses.map(...)`: the first image of each response, in order, or the
   * image-generation error as soon as one response has no image.
   */
  function ExtractImages(lists: seq<Option<seq<GeneratedImage>>>): (r: Result<seq<string>>)
    ensures r.Success? <==> forall i :: 0 <= i < |lists| ==> HasImage(lists[i])
    ensures r.Success? ==> |r.value| == |lists|
    ensures r.Success? ==> forall i :: 0 <= i < |lists| ==> r.value[i] == lists[i].value[0].imageBytes
    ensures r.Failure? ==> r.error == ImageGenerationFailed
  {
    if lists == [] then Success([])
    else if !HasImage(lists[0]) then Failure(ImageGenerationFailed)
    else
      var rest := ExtractImages(lists[1..]);
      if rest.Failure? then
        assert !HasImage(lists[1..][0]) || exists i :: 0 <= i < |lists| - 1 && !HasImage(lists[1..][i]);
        Failure(ImageGenerationFailed)
      else
        assert forall i :: 0 < i < |lists| ==> lists[i] == lists[1..][i - 1];
        Success([lists[0].value[0].imageBytes] + rest.value)
  }

  /** A response that resolves with at least one image. */
  predicate Usable(response: ImageResponse)
  {
    response.Resolved? && HasImage(response.generatedImages)
  }

  /** Every screen of the list gets a usable response. */
  predicate AllUsable(screens: seq<ScreenPrompt>, generateImages: string -> ImageResponse)
  {
    forall i :: 0 <= i < |screens| ==> Usable(generateImages(screens[i].prompt))
  }

  /** `images` holds, in screen order, the first image of each screen's response. */
  predicate FirstImagesOf(images: seq<string>, screens: seq<ScreenPrompt>, generateImages: string -> ImageResponse)
    requires AllUsable(screens, generateImages)
  {
    && |images| == |screens|
    && forall i :: 0 <= i < |screens| ==> images[i] == generateImages(screens[i].prompt).generatedImages.value[0].imageBytes
  }

  /**
   * generateUiMockups: one image request per screen of the screen list; the
   * step succeeds exactly when every request resolves with an image, and then
   * yields the first image of each response in screen order; otherwise it
   * throws and yields no images at all.
   */
  method GenerateUiMockups(improvedPrompt: string, selectedFeatures: seq<SelectedFeature>,
                           generateImages: string -> ImageResponse) returns (r: Result<seq<string>>)
    ensures r.Success? <==> AllUsable(ScreenPlan(improvedPrompt, selectedFeatures), generateImages)
    ensures r.Success? ==> FirstImagesOf(r.value, ScreenPlan(improvedPrompt, selectedFeatures), generateImages)
  {
    var screenPrompts := GetScreenGenerationPrompts(improvedPrompt, selectedFeatures);
    var responses := seq(|screenPrompts|, i requires 0 <= i < |screenPrompts| => generateImages(screenPrompts[i].prompt));
    assert forall i :: 0 <= i < |screenPrompts| ==> responses[i] == generateImages(screenPrompts[i].prompt);
    var settled := AwaitAll(responses);
    match settled {
      case Failure(e) =>
        r := Failure(e);
      case Success(lists) =>
        r := ExtractImages(lists);
    }
  }
}
