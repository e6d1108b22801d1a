/**
 * The display states, the per-state record and its factory defaults, shared
 * by the table and the collection variants of the stateful view, together
 * with what a view puts on screen for a state.
 *
 * UIKit objects are opaque tokens here: images, colours and data sources are
 * compared only for identity.
 */
module StatefulShared {

  /** Swift's `Optional`. */
  datatype Option<+T> = None | Some(value: T)

  /** `CollectionState`: the closed set of display states. */
  datatype CollectionState = Normal | Empty | Loading | Error

  /** `CollectionState.allCases`: every case once, in declaration order. */
  const AllCases: seq<CollectionState> := [Normal, Empty, Loading, Error]

  /** The position of `s` in `AllCases`, which is its only position there. */
  function Ordinal(s: CollectionState): (i: nat)
    ensures i < |AllCases| && AllCases[i] == s
    ensures forall j | 0 <= j < |AllCases| && AllCases[j] == s :: j == i
  {
    match s
    case Normal => 0
    case Empty => 1
    case Loading => 2
    case Error => 3
  }

  /** `allCases` enumerates exactly four distinct states. */
  lemma AllCasesEnumerates()
    ensures |AllCases| == 4
    ensures forall s: CollectionState :: s in AllCases
    ensures forall i, j | 0 <= i < j < |AllCases| :: AllCases[i] != AllCases[j]
  {
    forall s: CollectionState
      ensures s in AllCases
    {
      assert AllCases[Ordinal(s)] == s;
    }
  }

  /** An image handle: a named system symbol, or an image the application supplies. */
  datatype Image = SystemImage(name: string) | AppImage(id: nat)

  /** A colour handle; the model never looks inside a colour. */
  datatype Color = Color(id: nat)

  /** A data source a view can hand to its widget: one the application supplied, or the view's own placeholder. */
  datatype DataSource = AppSource(id: nat) | Placeholder

  /**
   * Rows (table) or items (collection) that `source` reports for `section`;
   * `appCount` stands for what the application's own data sources report.
   * The placeholder reports zero for every section.
   */
  function RowsInSection(source: DataSource, section: int, appCount: (nat, int) -> nat): (n: nat)
    ensures source == Placeholder ==> n == 0
  {
    match source
    case Placeholder => 0
    case AppSource(id) => appCount(id, section)
  }

  /** `CollectionStateData`: the record a view keeps for one state. */
  datatype CollectionStateData = CollectionStateData(stateId: CollectionState, image: Option<Image>, text: Option<string>)

  /** `CollectionStateData.create(forIdentifier:)`: the factory-default record of a state. */
  function Create(identifier: CollectionState): (data: CollectionStateData)
    ensures data.stateId == identifier
    ensures data.text.None? <==> identifier == Normal
    ensures data.image.None? <==> identifier == Normal || identifier == Loading
  {
    match identifier
    case Normal => CollectionStateData(Normal, None, None)
    case Loading => CollectionStateData(Loading, None, Some("Loading..."))
    case Empty => CollectionStateData(Empty, Some(SystemImage("text.badge.xmark")), Some("No results"))
    case Error => CollectionStateData(Error, Some(SystemImage("xmark.octagon")), Some("There was an unknown error"))
  }

  /** The documented default text and image of every state. */
  lemma DefaultContents()
    ensures Create(Normal).text == None && Create(Normal).image == None
    ensures Create(Loading).text == Some("Loading...") && Create(Loading).image == None
    ensures Create(Empty).text == Some("No results")
    ensures Create(Empty).image == Some(SystemImage("text.badge.xmark"))
    ensures Create(Error).text == Some("There was an unknown error")
    ensures Create(Error).image == Some(SystemImage("xmark.octagon"))
  {
  }

  /**
   * What `setState` leaves on screen, apart from the table's separator: the
   * placeholder label and image with their hidden flags, the spinner's hidden
   * flag, and the data source installed in the widget.
   */
  datatype Presentation = Presentation(
    text: Option<string>, textHidden: bool,
    image: Option<Image>, imageHidden: bool,
    spinnerHidden: bool,
    dataSource: Option<DataSource>)

  /**
   * The presentation of `state` whose record is `data`, for a view whose
   * application data source was `original` when it woke up.
   */
  function Render(data: CollectionStateData, state: CollectionState, original: Option<DataSource>): (p: Presentation)
    ensures p.text == data.text && (p.textHidden <==> data.text.None?)
    ensures p.image == data.image && (p.imageHidden <==> data.image.None?)
    ensures !p.spinnerHidden <==> state == Loading
    ensures state == Loading ==> p.dataSource == Some(Placeholder)
    ensures state != Loading ==> p.dataSource == original
  {
    var source := if state == Loading then Some(Placeholder) else original;
    Presentation(data.text, data.text.None?, data.image, data.image.None?, state != Loading, source)
  }
}
