# StatefulCollections: display-state model

StatefulCollections wraps UIKit's table and collection widgets. Each wrapped
widget has a display state: normal, empty, loading or error. The view
installs a placeholder (a text label, an image and a spinner) as the widget's
background view, which UIKit draws behind every cell; each state decides which
of its parts are visible. Only loading swaps in a placeholder data source that
reports zero rows, so nothing covers the placeholder then. In empty and error
the application's data source stays installed, and any rows or items it
reports draw over the placeholder.

Each view keeps a registry (`stateList`) with one record per state. A record
holds the state's id, an optional image and an optional text. The view also
keeps the state currently on display, and values it captures once in
`awakeFromNib`: the application's data source, the table's separator style,
and the placeholder's default tint and text colour.

This Dafny project models that core:

- `shared.dfy`, module `StatefulShared`: the `CollectionState` enum and its
  `allCases` order, and the record type with its factory defaults
  (`create(forIdentifier:)`). It also holds `Render`, the presentation that
  `setState` produces for a state, and the placeholder data source's row
  count.
- `registry.dfy`, module `StateRegistry`: the registry invariant (one record
  per state, in `allCases` order) and the linear `first`/`firstIndex` lookup,
  which is total under that invariant. It also holds the registry updates
  made by `setText`, `setImage`, `reset(state:)` and `fillStateData`, written
  as functions on values with their properties. One lemma shows that
  resetting every state one at a time gives exactly what `resetAllStates`
  rebuilds.
- `table_view.dfy`, module `TableView`: the class `StatefulTableView`. Its
  fields are the source's fields. Each method updates them step by step, as
  the Swift method does.
- `collection_view.dfy`, module `CollectionView`: the class
  `StatefulCollectionView`. It is the same as the table class, minus
  separator handling.

UIKit objects are opaque tokens. Images are `SystemImage(name)` or
`AppImage(id)`. Colours are `Color(id)`. A data source is either the
application's (`AppSource(id)`) or the view's own `Placeholder`.

`awakeFromNib` is modelled as each class's constructor. It receives as
parameters what it reads from UIKit: the widget's data source, the separator
style, and the image view's and label's default colours.

The class invariant `Valid()` says two things. First, the registry is
well-formed. Second, the screen shows the current state's record as
`setState` renders it. Every public method keeps `Valid()`.

A record holds only an id, an image and a text. `setState` picks the
spinner, the data source and the table's separator from the state alone.
After `awakeFromNib`, `reset(state:)` and `resetAllStates` always end by
re-running `setStateIfNeeded`, which re-renders the current state; the screen changes
only when the current state's record changed.

## Model

| member | source | states |
|---|---|---|
| `StatefulShared.Ordinal` | StatefulCollections/Source/StatefulShared.swift:12-17 | every state has a position in `allCases`, and it is the only one, so the four cases are distinct |
| `StatefulShared.AllCasesEnumerates` | StatefulCollections/Source/StatefulShared.swift:12-17 | `allCases` has exactly four distinct states and contains every state |
| `StatefulShared.RowsInSection` | Sources/StatefulCollections/StatefulEmptyDatasource.swift:14-24 | the placeholder data source reports zero rows (table) or items (collection) in every section |
| `StatefulShared.Create` | StatefulCollections/Source/StatefulShared.swift:30-56 | `create(s)` has id `s`; only the normal default has no text; only the normal and loading defaults have no image |
| `StatefulShared.DefaultContents` | StatefulCollections/Source/StatefulShared.swift:33-54 | the exact defaults: normal has nothing; loading has "Loading..."; empty has "No results" with system image "text.badge.xmark"; error has "There was an unknown error" with "xmark.octagon" |
| `StatefulShared.Render` | StatefulCollections/Source/StatefulTableView.swift:92-116 | the label shows the record's text and is hidden iff there is none, and the same holds for the image; the spinner is visible iff the state is loading; loading installs the placeholder; every other state installs the original data source |
| `StateRegistry.Defaults` | StatefulCollections/Source/StatefulTableView.swift:221-226 | what `fillStateData` appends is well-formed, and the record at each state's position is that state's factory default |
| `StateRegistry.FirstIndex` | StatefulCollections/Source/StatefulTableView.swift:177-184 | returns the first index whose record has the requested id, or none when no record has it; on a well-formed registry it always finds the state, at its `allCases` position |
| `StateRegistry.WithText` | StatefulCollections/Source/StatefulTableView.swift:136-140 | only the text of the edited state's record changes; that record's image and every other record stay as they were; the registry stays well-formed |
| `StateRegistry.WithImage` | StatefulCollections/Source/StatefulTableView.swift:125-129 | only the image of the edited state's record changes; that record's text and every other record stay as they were; the registry stays well-formed |
| `StateRegistry.WithDefault` | StatefulCollections/Source/StatefulTableView.swift:176-190 | the reset state's record becomes its factory default; every other record, and the list's length and order, are kept |
| `StateRegistry.ResetDiscardsEdits` | StatefulCollections/Source/StatefulTableView.swift:172-190 | resetting a state after setting its text and image gives the same registry as resetting it without those edits |
| `StateRegistry.EditsOnDistinctStatesCommute` | StatefulCollections/Source/StatefulTableView.swift:120-140 | edits to two different states give the same registry in either order: two text edits, two image edits, or a text edit on one and an image edit on the other |
| `StateRegistry.ResetEach` | StatefulCollections/Source/StatefulTableView.swift:176-190 | any sequence of `reset(state:)` calls keeps the registry well-formed |
| `StateRegistry.ResetEachRecord` | StatefulCollections/Source/StatefulTableView.swift:176-190 | after a sequence of resets, a state's record is its default if that state was reset, and is unchanged otherwise |
| `StateRegistry.ResetEveryStateIsResetAll` | StatefulCollections/Source/StatefulTableView.swift:176-199 | resetting every state, in any order, gives exactly the registry that `resetAllStates` rebuilds |
| `TableView.SeparatorFor` | StatefulCollections/Source/StatefulTableView.swift:101-116 | normal installs the separator captured at wake-up; loading, empty and error install none |
| `TableView.LoadingRoundTrip` | StatefulCollections/Source/StatefulTableView.swift:101-109 | on a woken-up table whose application supplied a data source, `setState(.loading)` shows zero rows in every section, and a following `setState(.normal)` shows exactly the rows the original data source reports, with the spinner hidden again |
| `TableView.StatefulTableView.AwakeFromNib` | StatefulCollections/Source/StatefulTableView.swift:33-82 | it captures the data source, separator and colours; the registry then holds one default per state in `allCases` order; the state is normal and the original data source is installed |
| `TableView.StatefulTableView.SetState` | StatefulCollections/Source/StatefulTableView.swift:92-118 | the screen shows `Render` of the state's record and its separator; the current state becomes `state`; the registry and colours are unchanged; setting the state already shown changes nothing (idempotence) |
| `TableView.StatefulTableView.SetImage` | StatefulCollections/Source/StatefulTableView.swift:125-129 | the registry becomes `WithImage`; the current state is kept; the screen is unchanged unless the edited state is current, in which case the new image shows |
| `TableView.StatefulTableView.SetText` | StatefulCollections/Source/StatefulTableView.swift:136-140 | the registry becomes `WithText`; the current state is kept; the screen is unchanged unless the edited state is current, in which case the new text shows |
| `TableView.StatefulTableView.SetImageTint` | StatefulCollections/Source/StatefulTableView.swift:146-148 | the image tint becomes the given colour; no other field changes |
| `TableView.StatefulTableView.SetTextColor` | StatefulCollections/Source/StatefulTableView.swift:154-156 | the text colour becomes the given colour; no other field changes |
| `TableView.StatefulTableView.ResetImageTint` | StatefulCollections/Source/StatefulTableView.swift:161-163 | the image tint goes back to the tint captured at wake-up; no other field changes |
| `TableView.StatefulTableView.ResetTextColor` | StatefulCollections/Source/StatefulTableView.swift:168-170 | the text colour goes back to the colour captured at wake-up; no other field changes |
| `TableView.StatefulTableView.Reset` | StatefulCollections/Source/StatefulTableView.swift:176-190 | the registry becomes `WithDefault`; the current state and colours are kept; the current state is re-rendered, and the screen is unchanged unless the reset state is current |
| `TableView.StatefulTableView.ResetAllStates` | StatefulCollections/Source/StatefulTableView.swift:195-199 | the registry becomes the four defaults; the current state and colours are kept; the current state is re-rendered |
| `TableView.StatefulTableView.GetStateData` | StatefulCollections/Source/StatefulTableView.swift:207-218 | returns the first record of the requested state, or none exactly when the registry has no such record; on a well-formed registry it returns the record at the state's position |
| `TableView.StatefulTableView.FillStateData` | StatefulCollections/Source/StatefulTableView.swift:221-226 | appends the four factory defaults, in `allCases` order, to the existing list |
| `TableView.StatefulTableView.SetStateIfNeeded` | StatefulCollections/Source/StatefulTableView.swift:229-233 | re-renders the current state if there is one, restoring `Valid()`; otherwise changes nothing |
| `CollectionView.StatefulCollectionView.AwakeFromNib` | Sources/StatefulCollections/StatefulCollectionView.swift:28-77 | it captures the data source and colours; the registry then holds one default per state in `allCases` order; the state is normal and the original data source is installed |
| `CollectionView.StatefulCollectionView.SetState` | Sources/StatefulCollections/StatefulCollectionView.swift:85-109 | the screen shows `Render` of the state's record; the current state becomes `state`; the registry and colours are unchanged; setting the state already shown changes nothing (idempotence) |
| `CollectionView.StatefulCollectionView.SetImage` | Sources/StatefulCollections/StatefulCollectionView.swift:116-120 | the registry becomes `WithImage`; the current state is kept; the screen is unchanged unless the edited state is current, in which case the new image shows |
| `CollectionView.StatefulCollectionView.SetText` | Sources/StatefulCollections/StatefulCollectionView.swift:127-131 | the registry becomes `WithText`; the current state is kept; the screen is unchanged unless the edited state is current, in which case the new text shows |
| `CollectionView.StatefulCollectionView.SetImageTint` | Sources/StatefulCollections/StatefulCollectionView.swift:137-139 | the image tint becomes the given colour; no other field changes |
| `CollectionView.StatefulCollectionView.SetTextColor` | Sources/StatefulCollections/StatefulCollectionView.swift:145-147 | the text colour becomes the given colour; no other field changes |
| `CollectionView.StatefulCollectionView.ResetImageTint` | Sources/StatefulCollections/StatefulCollectionView.swift:152-154 | the image tint goes back to the tint captured at wake-up; no other field changes |
| `CollectionView.StatefulCollectionView.ResetTextColor` | Sources/StatefulCollections/StatefulCollectionView.swift:159-161 | the text colour goes back to the colour captured at wake-up; no other field changes |
| `CollectionView.StatefulCollectionView.Reset` | Sources/StatefulCollections/StatefulCollectionView.swift:167-181 | the registry becomes `WithDefault`; the current state and colours are kept; the screen is unchanged unless the reset state is current |
| `CollectionView.StatefulCollectionView.ResetAllStates` | Sources/StatefulCollections/StatefulCollectionView.swift:186-190 | the registry becomes the four defaults; the current state and colours are kept; the current state is re-rendered |
| `CollectionView.StatefulCollectionView.GetStateData` | Sources/StatefulCollections/StatefulCollectionView.swift:195-206 | returns the first record of the requested state, or none exactly when the registry has no such record; on a well-formed registry it returns the record at the state's position |
| `CollectionView.StatefulCollectionView.FillStateData` | Sources/StatefulCollections/StatefulCollectionView.swift:209-214 | appends the four factory defaults, in `allCases` order, to the existing list |
| `CollectionView.StatefulCollectionView.SetStateIfNeeded` | Sources/StatefulCollections/StatefulCollectionView.swift:217-221 | re-renders the current state if there is one, restoring `Valid()`; otherwise changes nothing |

## Left out

- UIKit view construction and layout are left out because they are framework calls. This covers the image view, label, spinner and stack view, their sizes and constraints, `backgroundView`, `startAnimating`, and `setNeedsLayout`/`setNeedsDisplay`. Only the values and hidden flags the core sets are modelled.
- The `print` diagnostics in `getStateData` and `reset(state:)` are I/O and are left out. A failed lookup gives none, or a no-op. Under the invariant the lookup never fails.
- Records are modelled as values inside the registry sequence, not as shared objects. In the source, `currentState` keeps a reference to a record, but it only ever reads that record's `stateId`. So the model keeps just the state id. The visible effect is the same, including after a reset replaces the referenced record.
- The public API before `awakeFromNib` is not modelled; here `awakeFromNib` is the constructor. In the source, `setState` and the four tint and colour methods crash then, on the implicitly unwrapped label and image view. `setText` and `setImage` do nothing to the still-empty registry, because the lookup fails and there is no current state; after a `resetAllStates` made before `awakeFromNib`, the edit lands on the first copy of the record, which is the copy later lookups return. On the still-empty registry `reset(state:)` takes its not-found guard and returns; after a `resetAllStates` made before `awakeFromNib` it replaces the first copy of the record, and its `setStateIfNeeded` does nothing because there is no current state.
- A registry with duplicate state ids is not modelled. In the source, `resetAllStates` called before `awakeFromNib` fills four records, and `awakeFromNib` then appends four more. Every lookup then finds the first copy of each state. The model's invariant `WellFormed` (one record per state) excludes this case.
- Writes by the application to the widget's own `dataSource` (and the table's `separatorStyle`) after `awakeFromNib` are not modelled; `Valid()` ties both to the current state. In the source such a write lasts only until the next `setText`, `setImage`, `reset(state:)` or `resetAllStates`, on any state: each ends in `setStateIfNeeded`, which re-installs the captured data source and separator of the current state and so undoes the write. The methods' "screen unchanged" postconditions hold only under this exclusion.
- Stub cells from the placeholder data source are not modelled, because with zero rows they are never requested. `StatefulCollections/Source/StatefulDatasources.swift` is not modelled separately. Only the placeholder's zero count is kept.
- The commented-out `StatefulCollections/Source/StatefulCollectionView.swift` is not modelled. This includes its `reloadData` override that switches back to normal, which is superseded behaviour.
- Real image and colour values are left out and treated as tokens. `UIImage(systemName:)` is modelled as always giving the named system image.
- The demo application (view controllers, seed data and delayed callbacks) is left out because it is example glue.
