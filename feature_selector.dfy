// components/FeatureSelector.tsx: one card per category, one radio option per
// category option, the "is this option selected" lookup and the arguments each
// option hands to the change callback.
module FeatureSelector {
  import opened Types
  import opened ArrayOps

  /** The lookup key `f => f.category === cat.category`. */
  function HasCategory(category: string): SelectedFeature -> bool
  {
    (f: SelectedFeature) => f.category == category
  }

  /** Entry `i` is the first selection entry of the category. */
  predicate FirstEntryOf(selectedFeatures: seq<SelectedFeature>, category: string, i: int)
  {
    && 0 <= i < |selectedFeatures|
    && selectedFeatures[i].category == category
    && forall j :: 0 <= j < i ==> selectedFeatures[j].category != category
  }

  /**
   * The option is marked selected when the FIRST selection entry of its
   * category names it; with no entry for the category, nothing is selected.
   */
  function IsSelected(selectedFeatures: seq<SelectedFeature>, category: string, optionName: string): (b: bool)
    ensures b <==> exists i :: FirstEntryOf(selectedFeatures, category, i) && selectedFeatures[i].selectedOption == optionName
  {
    var found := FindFirst(selectedFeatures, HasCategory(category));
    if found.Some? then
      assert found.value.category == category;
      found.value.selectedOption == optionName
    else false
  }

  /** Without an entry for the category, none of its options is selected. */
  lemma NothingSelectedWithoutEntry(selectedFeatures: seq<SelectedFeature>, category: string, optionName: string)
    requires forall i :: 0 <= i < |selectedFeatures| ==> selectedFeatures[i].category != category
    ensures !IsSelected(selectedFeatures, category, optionName)
  {
  }

  /** When a category's option names are distinct, at most one of its options is selected. */
  lemma AtMostOneSelected(selectedFeatures: seq<SelectedFeature>, cat: FeatureCategory, a: nat, b: nat)
    requires a < |cat.options| && b < |cat.options|
    requires forall i, j :: 0 <= i < j < |cat.options| ==> cat.options[i].name != cat.options[j].name
    requires IsSelected(selectedFeatures, cat.category, cat.options[a].name)
    requires IsSelected(selectedFeatures, cat.category, cat.options[b].name)
    ensures a == b
  {
    var i :| FirstEntryOf(selectedFeatures, cat.category, i) && selectedFeatures[i].selectedOption == cat.options[a].name;
    var k :| FirstEntryOf(selectedFeatures, cat.category, k) && selectedFeatures[k].selectedOption == cat.options[b].name;
    assert i == k;
  }

  /** One rendered radio option: its texts, whether it is checked, and the callback arguments. */
  datatype OptionView = OptionView(name: string, description: string, checked: bool, onChange: (string, string))

  /** One rendered category card. */
  datatype CardView = CardView(category: string, description: string, options: seq<OptionView>)

  function RenderOptions(cat: FeatureCategory, selectedFeatures: seq<SelectedFeature>): (views: seq<OptionView>)
    ensures |views| == |cat.options|
    ensures forall j :: 0 <= j < |views| ==>
      views[j] == OptionView(cat.options[j].name, cat.options[j].description,
                             IsSelected(selectedFeatures, cat.category, cat.options[j].name),
                             (cat.category, cat.options[j].name))
  {
    seq(|cat.options|, j requires 0 <= j < |cat.options| =>
      OptionView(cat.options[j].name, cat.options[j].description,
                 IsSelected(selectedFeatures, cat.category, cat.options[j].name),
                 (cat.category, cat.options[j].name)))
  }

  /**
   * The selector: one card per category in category order; choosing an option
   * reports exactly that category's name and that option's name.
   */
  function Render(categories: seq<FeatureCategory>, selectedFeatures: seq<SelectedFeature>): (cards: seq<CardView>)
    ensures |cards| == |categories|
    ensures forall i :: 0 <= i < |cards| ==>
      && cards[i].category == categories[i].category
      && cards[i].description == categories[i].description
      && cards[i].options == RenderOptions(categories[i], selectedFeatures)
  {
    seq(|categories|, i requires 0 <= i < |categories| =>
      CardView(categories[i].category, categories[i].description, RenderOptions(categories[i], selectedFeatures)))
  }

  /** In each card, the checked options are exactly those the lookup marks; each callback names its own card and option. */
  lemma RenderedOptionsFollowSelection(categories: seq<FeatureCategory>, selectedFeatures: seq<SelectedFeature>, i: nat, j: nat)
    requires i < |categories| && j < |categories[i].options|
    ensures var view := Render(categories, selectedFeatures)[i].options[j];
      && view.onChange == (categories[i].category, categories[i].options[j].name)
      && (view.checked <==>
            exists k :: FirstEntryOf(selectedFeatures, categories[i].category, k)
                        && selectedFeatures[k].selectedOption == categories[i].options[j].name)
  {
  }
}
