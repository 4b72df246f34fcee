/** The features section of the home page: four cards and one selection slot,
    `number | null`, that a click on a card toggles. */
module Featured {
  import opened Optional

  datatype Feature = Feature(id: int, title: string, description: string)

  const Features: seq<Feature> := [
    Feature(1, "Advanced Analytics", "Gain valuable insights with our powerful analytics tools. Track performance and make data-driven decisions."),
    Feature(2, "Smart Automation", "Automate repetitive tasks and workflows to save time and increase productivity."),
    Feature(3, "Seamless Integration", "Connect with your favorite tools and platforms for a unified marketing experience."),
    Feature(4, "Real-time Collaboration", "Work together with your team in real-time, no matter where they are located.")
  ]

  /** No card is selected when the section mounts. */
  const InitialSelection: Option<int> := None

  lemma FeatureIds()
    ensures |Features| == 4
    ensures forall k :: 0 <= k < |Features| ==> Features[k].id == k + 1
  {
  }

  /** `isSelected={selectedFeature === feature.id}` */
  predicate IsSelected(selection: Option<int>, id: int) {
    selection == Some(id)
  }

  /** The click handler of a card: the selected card is cleared, any other card becomes the selection. */
  function Toggle(selection: Option<int>, id: int): (r: Option<int>)
    ensures IsSelected(selection, id) ==> r.None?
    ensures !IsSelected(selection, id) ==> r == Some(id)
  {
    if selection == Some(id) then None else Some(id)
  }

  /** Two clicks on the same card restore what was there before... */
  lemma ToggleTwice(selection: Option<int>, id: int)
    requires selection.None? || selection == Some(id)
    ensures Toggle(Toggle(selection, id), id) == selection
  {
  }

  /** ...except when another card was selected: then the two clicks clear it. */
  lemma ToggleTwiceFromOther(selection: Option<int>, id: int)
    requires selection.Some? && selection != Some(id)
    ensures Toggle(Toggle(selection, id), id) == None
  {
  }

  /** At most one card is drawn selected, because the four ids are distinct. */
  lemma AtMostOneSelected(selection: Option<int>, i: nat, j: nat)
    requires i < |Features| && j < |Features|
    requires IsSelected(selection, Features[i].id) && IsSelected(selection, Features[j].id)
    ensures i == j
  {
    FeatureIds();
  }

  /** The selection after a sequence of clicks on the given ids. */
  function Clicks(selection: Option<int>, ids: seq<int>): Option<int>
    decreases |ids|
  {
    if ids == [] then selection else Clicks(Toggle(selection, ids[0]), ids[1..])
  }

  predicate FromTable(selection: Option<int>) {
    selection.None? || exists k :: 0 <= k < |Features| && selection == Some(Features[k].id)
  }

  /** Clicks on the rendered cards only ever select a feature of the table, and the
      selection is the last card clicked or nothing. */
  lemma {:induction false} ClicksStayInTable(selection: Option<int>, ids: seq<int>)
    requires FromTable(selection)
    requires forall i :: 0 <= i < |ids| ==> 1 <= ids[i] <= 4
    ensures FromTable(Clicks(selection, ids))
    ensures ids != [] ==> Clicks(selection, ids).None? || Clicks(selection, ids) == Some(ids[|ids| - 1])
    decreases |ids|
  {
    FeatureIds();
    if ids != [] {
      var next := Toggle(selection, ids[0]);
      if next.Some? {
        assert next == Some(Features[ids[0] - 1].id);
      }
      ClicksStayInTable(next, ids[1..]);
    }
  }

  /** `isSelected ? 'col-span-1' : 'col-span-1'`: selection does not change the card's width. */
  function CardSpan(isSelected: bool): string {
    if isSelected then "col-span-1" else "col-span-1"
  }

  lemma SelectionKeepsLayout(selection: Option<int>, id: int)
    ensures CardSpan(IsSelected(selection, id)) == CardSpan(IsSelected(Toggle(selection, id), id))
    ensures CardSpan(true) == CardSpan(false)
  {
  }

  class FeaturedSection {
    var selectedFeature: Option<int>

    constructor ()
      ensures selectedFeature == InitialSelection
    {
      selectedFeature := None;
    }

    /** The `onClick` passed to the card with the given id. */
    method Click(id: int)
      modifies this
      ensures selectedFeature == Toggle(old(selectedFeature), id)
    {
      if selectedFeature == Some(id) {
        selectedFeature := None;
      } else {
        selectedFeature := Some(id);
      }
    }
  }
}
