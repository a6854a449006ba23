/**
 * The sidebar menu and the page dispatch that follows it (main.py, lines
 * 230-237 and the if/elif chain at lines 245, 373 and 502).
 */
module Router {
  import opened Wrappers

  /** The three prediction pages. */
  datatype Page = DiabetesPage | HeartPage | ParkinsonsPage

  /** The menu's options, in the order the sidebar lists them. */
  const MenuOptions: seq<string> :=
    ["Diabetes Prediction", "Heart Disease Prediction", "Parkinsons Disease Prediction"]

  /** The sidebar opens on the first option. */
  const DefaultIndex: nat := 0

  /** The menu label whose selection shows page `p`. */
  function MenuLabel(p: Page): string {
    match p
    case DiabetesPage => "Diabetes Prediction"
    case HeartPage => "Heart Disease Prediction"
    case ParkinsonsPage => "Parkinsons Disease Prediction"
  }

  /**
   * The if/elif chain over the selected label. The chain has no `else`:
   * a label outside the menu shows no page at all.
   */
  function Route(selected: string): (page: Option<Page>)
    ensures page.Some? <==> selected in MenuOptions
    ensures page.Some? ==> MenuLabel(page.value) == selected
  {
    if selected == "Diabetes Prediction" then Some(DiabetesPage)
    else if selected == "Heart Disease Prediction" then Some(HeartPage)
    else if selected == "Parkinsons Disease Prediction" then Some(ParkinsonsPage)
    else None
  }

  /** Every page is reachable from the menu, by its own label and by no other. */
  lemma RouteInvertsMenuLabel(p: Page, selected: string)
    ensures MenuLabel(p) in MenuOptions
    ensures Route(selected) == Some(p) <==> selected == MenuLabel(p)
  {
  }

  /** The menu lists the pages in the order diabetes, heart, Parkinson's, and opens on diabetes. */
  lemma MenuOrder()
    ensures |MenuOptions| == 3
    ensures Route(MenuOptions[DefaultIndex]) == Some(DiabetesPage)
    ensures Route(MenuOptions[1]) == Some(HeartPage)
    ensures Route(MenuOptions[2]) == Some(ParkinsonsPage)
  {
  }
}
