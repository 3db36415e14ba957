// components/UIGallery.tsx: one tile per generated image, in image order,
// each with a data URI, an alt text and a title taken by index from a fixed
// list of five screen titles.
module UIGallery {
  import opened Types
  import opened Text
  import opened GeminiService

  const ScreenTitles: seq<string> := ["Splash Screen", "Login Screen", "Home / Dashboard", "Main Feature Screen", "Settings Screen"]
  const DataUriPrefix: string := "data:image/png;base64,"
  const AltPrefix: string := "Generated UI for screen "
  const FallbackPrefix: string := "Screen "

  /** One rendered tile. */
  datatype Tile = Tile(src: string, alt: string, title: string)

  /** `screenTitles[index] || \`Screen ${index + 1}\``: a missing or empty title falls back to the 1-based number. */
  function Title(index: nat): string
  {
    if index < |ScreenTitles| && ScreenTitles[index] != "" then ScreenTitles[index]
    else FallbackPrefix + NatToString(index + 1)
  }

  /** The gallery: one tile per image, in image order, the image as a PNG data URI and the 1-based index in the alt text. */
  function Tiles(images: seq<string>): (tiles: seq<Tile>)
    ensures |tiles| == |images|
    ensures forall i :: 0 <= i < |images| ==>
      && tiles[i].src == DataUriPrefix + images[i]
      && tiles[i].alt == AltPrefix + NatToString(i + 1)
      && tiles[i].title == Title(i)
  {
    seq(|images|, i requires 0 <= i < |images| => Tile(DataUriPrefix + images[i], AltPrefix + NatToString(i + 1), Title(i)))
  }

  /**
   * The first five tiles take the fixed titles; every later tile is titled
   * "Screen " followed by the decimal digits of its 1-based position.
   */
  lemma TitleByIndex(index: nat)
    ensures index < 5 ==> Title(index) == ScreenTitles[index]
    ensures index >= 5 ==> exists digits ::
      && Title(index) == FallbackPrefix + digits
      && (forall k :: 0 <= k < |digits| ==> '0' <= digits[k] <= '9')
      && DigitsValue(digits) == index + 1
  {
    if index >= 5 {
      NatToStringRoundTrip(index + 1);
      assert Title(index) == FallbackPrefix + NatToString(index + 1);
    }
  }

  /** How the gallery spells each screen name of the screen list. */
  function DisplayName(name: string): string
  {
    if name == HomeName then "Home / Dashboard" else name
  }

  /** The five fixed titles are, in order, the gallery's spelling of the five screen names. */
  lemma FixedTitles()
    ensures Title(0) == SplashName && Title(1) == LoginName && Title(2) == DisplayName(HomeName)
    ensures Title(3) == MainFeatureName && Title(4) == SettingsName
  {
  }

  /** With the login screen generated, every tile's title names the screen its image was generated for. */
  lemma TitlesMatchWithLogin(basePrompt: string, features: seq<SelectedFeature>, images: seq<string>)
    requires IncludesLogin(features)
    requires |images| == |ScreenPlan(basePrompt, features)|
    ensures forall i :: 0 <= i < |images| ==> Tiles(images)[i].title == DisplayName(ScreenPlan(basePrompt, features)[i].name)
  {
    ScreenPlanShape(basePrompt, features);
    FixedTitles();
    var plan := ScreenPlan(basePrompt, features);
    assert SplashName != HomeName && LoginName != HomeName && MainFeatureName != HomeName && SettingsName != HomeName;
    forall i | 0 <= i < |images|
      ensures Tiles(images)[i].title == DisplayName(plan[i].name)
    {
      assert i == 0 || i == 1 || i == 2 || i == 3 || i == 4;
    }
  }

  /**
   * Without the login screen, the titles are shifted: the dashboard image is
   * labelled "Login Screen", and no tile is labelled "Settings Screen".
   */
  lemma MislabelledWithoutLogin(basePrompt: string, features: seq<SelectedFeature>, images: seq<string>)
    requires !IncludesLogin(features)
    requires |images| == |ScreenPlan(basePrompt, features)|
    ensures |images| == 4
    ensures ScreenPlan(basePrompt, features)[1].name == HomeName && Tiles(images)[1].title == LoginName
    ensures forall i :: 0 <= i < |images| ==> Tiles(images)[i].title != SettingsName
  {
    ScreenPlanShape(basePrompt, features);
  }

  /**
   * The labelling the gallery evidently intends: each tile titled after the
   * screen its image was generated for; tiles beyond the screen list keep the
   * numbered fallback.
   */
  function IntendedTitle(screenNames: seq<string>, index: nat): string
  {
    if index < |screenNames| then DisplayName(screenNames[index]) else Title(index)
  }

  /** The gallery with the intended labelling; sources and alt texts are those of Tiles. */
  function IntendedTiles(images: seq<string>, screenNames: seq<string>): (tiles: seq<Tile>)
    ensures |tiles| == |images|
    ensures forall i :: 0 <= i < |images| ==>
      tiles[i] == Tiles(images)[i].(title := IntendedTitle(screenNames, i))
  {
    seq(|images|, i requires 0 <= i < |images| =>
      Tile(DataUriPrefix + images[i], AltPrefix + NatToString(i + 1), IntendedTitle(screenNames, i)))
  }

  function ScreenNames(screens: seq<ScreenPrompt>): (names: seq<string>)
    ensures |names| == |screens|
    ensures forall i :: 0 <= i < |screens| ==> names[i] == screens[i].name
  {
    seq(|screens|, i requires 0 <= i < |screens| => screens[i].name)
  }

  /**
   * With the intended labelling, every screen list, with or without login, is
   * titled tile by tile after its screens: the second tile is the login screen
   * only when there is one, and the last tile is always the settings screen.
   */
  lemma IntendedTitlesMatch(basePrompt: string, features: seq<SelectedFeature>, images: seq<string>)
    requires |images| == |ScreenPlan(basePrompt, features)|
    ensures var tiles := IntendedTiles(images, ScreenNames(ScreenPlan(basePrompt, features)));
      && (forall i :: 0 <= i < |tiles| ==> tiles[i].title == DisplayName(ScreenPlan(basePrompt, features)[i].name))
      && tiles[1].title == (if IncludesLogin(features) then LoginName else DisplayName(HomeName))
      && tiles[|tiles| - 1].title == SettingsName
  {
    ScreenPlanShape(basePrompt, features);
    assert LoginName != HomeName && SettingsName != HomeName;
  }
}
