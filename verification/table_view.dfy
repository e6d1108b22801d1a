/**
 * `StatefulTableView`: a table widget whose background view is a placeholder
 * (text, image, spinner) configured for its display state. Only loading swaps
 * in a zero-row data source; otherwise the application's rows draw over it.
 */
module TableView {
  import opened StatefulShared
  import opened StateRegistry

  /** `UITableViewCell.SeparatorStyle`. */
  datatype SeparatorStyle = NoSeparator | SingleLine | SingleLineEtched

  /** The separator `setState` installs: the one captured at wake-up for normal, none otherwise. */
  function SeparatorFor(state: CollectionState, captured: SeparatorStyle): (style: SeparatorStyle)
    ensures state == Normal ==> style == captured
    ensures state != Normal ==> style == NoSeparator
  {
    if state == Normal then captured else NoSeparator
  }

  class StatefulTableView {
    // The placeholder background view: label, image view and spinner.
    var labelText: Option<string>
    var labelHidden: bool
    var labelTextColor: Color
    var imageViewImage: Option<Image>
    var imageViewHidden: bool
    var imageViewTint: Color
    var activityIndicatorHidden: bool

    // The registry and the state on display.
    var stateList: seq<CollectionStateData>
    var currentState: Option<CollectionState>

    // The table widget's own properties.
    var dataSource: Option<DataSource>
    var separatorStyle: SeparatorStyle

    // Captured once, in awakeFromNib.
    const emptyDatasource: DataSource
    const originalDatasource: Option<DataSource>
    const currentSeparator: SeparatorStyle
    const imageTint: Color
    const textColor: Color

    /** The registry holds one record per state in `allCases` order, and the placeholder is the view's own. */
    ghost predicate Registered()
      reads this
    {
      WellFormed(stateList) && emptyDatasource == Placeholder
    }

    /** What is on screen, apart from the separator and the colours. */
    ghost function Presented(): Presentation
      reads this
    {
      Presentation(labelText, labelHidden, imageViewImage, imageViewHidden, activityIndicatorHidden, dataSource)
    }

    /** Whether the screen shows state `s` as `setState(to: s)` renders it from the registry. */
    ghost predicate Shows(s: CollectionState)
      reads this
      requires WellFormed(stateList)
    {
      Presented() == Render(stateList[Ordinal(s)], s, originalDatasource) &&
      separatorStyle == SeparatorFor(s, currentSeparator)
    }

    /** The view invariant: a well-formed registry, and the screen shows the current state's record. */
    ghost predicate Valid()
      reads this
    {
      Registered() && currentState.Some? && Shows(currentState.value)
    }

    /**
     * `awakeFromNib`: captures the table's data source, separator style and
     * the placeholder's default tint and text colour, builds the registry and
     * shows the normal state.
     */
    constructor AwakeFromNib(appDataSource: Option<nat>, separator: SeparatorStyle, defaultTint: Color, defaultTextColor: Color)
      ensures Valid()
      ensures stateList == Defaults() && currentState == Some(Normal)
      ensures originalDatasource == (if appDataSource.Some? then Some(AppSource(appDataSource.value)) else None)
      ensures dataSource == originalDatasource
      ensures currentSeparator == separator && separatorStyle == separator
      ensures imageTint == defaultTint && imageViewTint == defaultTint
      ensures textColor == defaultTextColor && labelTextColor == defaultTextColor
    {
      currentSeparator := separator;
      originalDatasource := if appDataSource.Some? then Some(AppSource(appDataSource.value)) else None;
      emptyDatasource := Placeholder;
      dataSource := originalDatasource;
      separatorStyle := separator;
      labelText, labelHidden, labelTextColor := None, false, defaultTextColor;
      imageViewImage, imageViewHidden, imageViewTint := None, false, defaultTint;
      activityIndicatorHidden := false;
      imageTint := defaultTint;
      textColor := defaultTextColor;
      stateList := [];
      currentState := None;
      new;
      FillStateData();
      SetState(Normal);
    }

    /**
     * `setState(to:)`: shows the record of `state` and installs the data
     * source and separator of `state`. The registry and the colours stay as
     * they are; setting the state already on display changes nothing.
     */
    method SetState(state: CollectionState)
      requires Registered()
      modifies this
      ensures Valid() && currentState == Some(state)
      ensures Presented() == Render(stateList[Ordinal(state)], state, originalDatasource)
      ensures separatorStyle == SeparatorFor(state, currentSeparator)
      ensures stateList == old(stateList)
      ensures imageViewTint == old(imageViewTint) && labelTextColor == old(labelTextColor)
      ensures old(Valid()) && old(currentState) == Some(state) ==> unchanged(this)
    {
      var data := GetStateData(state);
      currentState := if data.Some? then Some(data.value.stateId) else None;

      labelText := if data.Some? then data.value.text else None;
      labelHidden := labelText.None?;
      imageViewImage := if data.Some? then data.value.image else None;
      imageViewHidden := imageViewImage.None?;

      if state == Loading {
        dataSource := Some(emptyDatasource);
        activityIndicatorHidden := false;
        separatorStyle := NoSeparator;
      } else if state == Normal {
        dataSource := originalDatasource;
        activityIndicatorHidden := true;
        separatorStyle := currentSeparator;
      } else {
        dataSource := originalDatasource;
        activityIndicatorHidden := true;
        separatorStyle := NoSeparator;
      }
    }

    /**
     * `setImage(to:forState:)`: changes the image of `state`'s record only,
     * and re-renders the current state, so the screen changes only when
     * `state` is on display.
     */
    method SetImage(image: Option<Image>, state: CollectionState)
      requires Valid()
      modifies this
      ensures Valid() && currentState == old(currentState)
      ensures stateList == WithImage(old(stateList), state, image)
      ensures old(currentState) != Some(state) ==> Presented() == old(Presented()) && separatorStyle == old(separatorStyle)
      ensures old(currentState) == Some(state) ==> imageViewImage == image && (imageViewHidden <==> image.None?)
      ensures imageViewTint == old(imageViewTint) && labelTextColor == old(labelTextColor)
    {
      var index := FirstIndex(stateList, state);
      if index.Some? {
        stateList := stateList[index.value := stateList[index.value].(image := image)];
      }
      SetStateIfNeeded();
    }

    /**
     * `setText(to:forState:)`: changes the text of `state`'s record only,
     * and re-renders the current state, so the screen changes only when
     * `state` is on display.
     */
    method SetText(text: Option<string>, state: CollectionState)
      requires Valid()
      modifies this
      ensures Valid() && currentState == old(currentState)
      ensures stateList == WithText(old(stateList), state, text)
      ensures old(currentState) != Some(state) ==> Presented() == old(Presented()) && separatorStyle == old(separatorStyle)
      ensures old(currentState) == Some(state) ==> labelText == text && (labelHidden <==> text.None?)
      ensures imageViewTint == old(imageViewTint) && labelTextColor == old(labelTextColor)
    {
      var index := FirstIndex(stateList, state);
      if index.Some? {
        stateList := stateList[index.value := stateList[index.value].(text := text)];
      }
      SetStateIfNeeded();
    }

    /** `setImageTint(to:)`: tints the placeholder image for every state; nothing else changes. */
    method SetImageTint(color: Color)
      requires Valid()
      modifies this`imageViewTint
      ensures Valid() && imageViewTint == color
    {
      imageViewTint := color;
    }

    /** `setTextColor(to:)`: colours the placeholder text for every state; nothing else changes. */
    method SetTextColor(color: Color)
      requires Valid()
      modifies this`labelTextColor
      ensures Valid() && labelTextColor == color
    {
      labelTextColor := color;
    }

    /** `resetImageTint()`: puts back the tint captured at wake-up; nothing else changes. */
    method ResetImageTint()
      requires Valid()
      modifies this`imageViewTint
      ensures Valid() && imageViewTint == imageTint
    {
      imageViewTint := imageTint;
    }

    /** `resetTextColor()`: puts back the text colour captured at wake-up; nothing else changes. */
    method ResetTextColor()
      requires Valid()
      modifies this`labelTextColor
      ensures Valid() && labelTextColor == textColor
    {
      labelTextColor := textColor;
    }

    /**
     * `reset(state:)`: replaces the record of `state` by its factory default,
     * in place, and re-renders the current state. Colours are untouched.
     */
    method Reset(state: CollectionState)
      requires Valid()
      modifies this
      ensures Valid() && currentState == old(currentState)
      ensures stateList == WithDefault(old(stateList), state)
      ensures old(currentState) != Some(state) ==> Presented() == old(Presented()) && separatorStyle == old(separatorStyle)
      ensures imageViewTint == old(imageViewTint) && labelTextColor == old(labelTextColor)
    {
      var index := FirstIndex(stateList, state);
      // When the state is not found, the source logs a diagnostic and returns.
      if index.Some? {
        var restoredState := Create(state);
        stateList := stateList[index.value := restoredState];
        SetStateIfNeeded();
      }
    }

    /**
     * `resetAllStates()`: rebuilds every record from its factory default and
     * re-renders the current state. Colours are untouched.
     */
    method ResetAllStates()
      requires Valid()
      modifies this
      ensures Valid() && currentState == old(currentState)
      ensures stateList == Defaults()
      ensures imageViewTint == old(imageViewTint) && labelTextColor == old(labelTextColor)
    {
      stateList := [];
      FillStateData();
      SetStateIfNeeded();
    }

    /** `getStateData(for:)`: the first record of `state`, or none when the registry lacks it. */
    method GetStateData(state: CollectionState) returns (data: Option<CollectionStateData>)
      ensures data.Some? ==> data.value.stateId == state
      ensures data.Some? ==> exists i | 0 <= i < |stateList| :: stateList[i] == data.value &&
                               forall j | 0 <= j < i :: stateList[j].stateId != state
      ensures data.None? <==> forall j | 0 <= j < |stateList| :: stateList[j].stateId != state
      ensures WellFormed(stateList) ==> data == Some(stateList[Ordinal(state)])
    {
      var index := FirstIndex(stateList, state);
      data := if index.Some? then Some(stateList[index.value]) else None;
    }

    /** `fillStateData()`: appends the factory default of every state, in `allCases` order. */
    method FillStateData()
      modifies this`stateList
      ensures stateList == old(stateList) + Defaults()
    {
      for k := 0 to |AllCases|
        invariant stateList == old(stateList) + Defaults()[..k]
      {
        var data := Create(AllCases[k]);
        stateList := stateList + [data];
      }
    }

    /** `setStateIfNeeded()`: re-renders the current state, if there is one. */
    method SetStateIfNeeded()
      requires Registered()
      modifies this
      ensures stateList == old(stateList) && currentState == old(currentState)
      ensures currentState.Some? ==> Valid()
      ensures currentState.None? ==> unchanged(this)
      ensures imageViewTint == old(imageViewTint) && labelTextColor == old(labelTextColor)
    {
      if currentState.Some? {
        SetState(currentState.value);
      }
    }
  }

  /**
   * A load cycle on a woken-up table whose application supplied a data source:
   * `setState(.loading)` shows no rows in `section`, and the following
   * `setState(.normal)` shows exactly the rows the original data source reports.
   */
  method LoadingRoundTrip(table: StatefulTableView, section: int, appCount: (nat, int) -> nat)
    returns (loadingRows: nat, normalRows: nat)
    requires table.Valid() && table.originalDatasource.Some?
    modifies table
    ensures table.Valid() && table.currentState == Some(Normal)
    ensures loadingRows == 0
    ensures normalRows == RowsInSection(table.originalDatasource.value, section, appCount)
    ensures table.activityIndicatorHidden && table.dataSource == table.originalDatasource
    ensures table.stateList == old(table.stateList)
  {
    table.SetState(Loading);
    loadingRows := RowsInSection(table.dataSource.value, section, appCount);
    table.SetState(Normal);
    normalRows := RowsInSection(table.dataSource.value, section, appCount);
  }
}
