/**
 * `CustomScrollableStyle`: one scrollbar appearance per interaction state
 * of a scrollable widget, and a selector that says which of the eight
 * records the next fluent setter writes.
 */
module Scrollable {
  import opened Wrappers
  import opened Iced
  import Chains

  /** `ScrollableState`; `Active` is its `Default`. */
  datatype ScrollableState =
    | Active
    | Hovered
    | HoveredOverScrollbar
    | Dragging
    | ActiveHorizontal
    | HoveredHorizontal
    | HoveredHorizontalOverScrollbar
    | DraggingHorizontal

  /** `scrollable::Scroller`: the appearance of the draggable thumb. */
  datatype Scroller = Scroller(color: Color, borderRadius: BorderRadius, borderWidth: F32, borderColor: Color)

  /** `scrollable::Scrollbar`: the appearance of the rail and its scroller. */
  datatype Scrollbar = Scrollbar(
    background: Option<Background>,
    borderRadius: BorderRadius,
    borderWidth: F32,
    borderColor: Color,
    scroller: Scroller)

  /** The record `new()` puts in every state: no background, zero widths, default radii and colours. */
  const DEFAULT_SCROLLBAR: Scrollbar :=
    Scrollbar(None, DEFAULT_RADIUS, ZERO, DEFAULT_COLOR, Scroller(DEFAULT_COLOR, DEFAULT_RADIUS, ZERO, DEFAULT_COLOR))

  /**
   * The record a per-state setter writes while `st` is selected. Every
   * state writes its own record, except `DraggingHorizontal`, whose
   * setters all write the `dragging` record.
   */
  function Target(st: ScrollableState): ScrollableState {
    if st == DraggingHorizontal then Dragging else st
  }

  /** One call of a builder chain: a state selector or a per-state setter with its argument. */
  datatype Call =
    | Select(state: ScrollableState)
    | SetBackground(background: Option<Background>)
    | SetBackgroundColor(color: Color)
    | SetBorderRadius(radius: BorderRadius)
    | SetBorderWidth(width: F32)
    | SetBorderColor(color: Color)
    | SetScrollerColor(color: Color)
    | SetScrollerBorderRadius(radius: BorderRadius)
    | SetScrollerBorderWidth(width: F32)
    | SetScrollerBorderColor(color: Color)

  datatype CustomScrollableStyle = CustomScrollableStyle(
    active: Scrollbar,
    hovered: Scrollbar,
    hoveredOverScrollbar: Scrollbar,
    dragging: Scrollbar,
    activeHorizontal: Scrollbar,
    hoveredHorizontal: Scrollbar,
    hoveredHorizontalOverScrollbar: Scrollbar,
    draggingHorizontal: Scrollbar,
    currentState: ScrollableState)
  {
    /** The record stored for state `st`. */
    function Record(st: ScrollableState): Scrollbar {
      match st
      case Active => active
      case Hovered => hovered
      case HoveredOverScrollbar => hoveredOverScrollbar
      case Dragging => dragging
      case ActiveHorizontal => activeHorizontal
      case HoveredHorizontal => hoveredHorizontal
      case HoveredHorizontalOverScrollbar => hoveredHorizontalOverScrollbar
      case DraggingHorizontal => draggingHorizontal
    }

    /** `that` has the same selected state as this style and the same record in every state but `t`. */
    predicate AgreesExcept(that: CustomScrollableStyle, t: ScrollableState) {
      && currentState == that.currentState
      && forall st :: st != t ==> Record(st) == that.Record(st)
    }

    /** `CustomScrollableStyle::new`: the same default record in all eight states, `Active` selected. */
    static function New(): (s: CustomScrollableStyle)
      ensures s.currentState == ScrollableState.Active
      ensures forall st :: s.Record(st) == DEFAULT_SCROLLBAR
      ensures DEFAULT_SCROLLBAR.background == None
      ensures DEFAULT_SCROLLBAR.borderWidth == ZERO && DEFAULT_SCROLLBAR.scroller.borderWidth == ZERO
    {
      var d := DEFAULT_SCROLLBAR;
      CustomScrollableStyle(d, d, d, d, d, d, d, d, ScrollableState.Active)
    }

    // The eight state selectors.

    function Active(): (r: CustomScrollableStyle)
      ensures r.currentState == ScrollableState.Active
      ensures forall st :: r.Record(st) == Record(st)
    {
      this.(currentState := ScrollableState.Active)
    }

    function Hovered(): (r: CustomScrollableStyle)
      ensures r.currentState == ScrollableState.Hovered
      ensures forall st :: r.Record(st) == Record(st)
    {
      this.(currentState := ScrollableState.Hovered)
    }

    function HoveredOverScrollbar(): (r: CustomScrollableStyle)
      ensures r.currentState == ScrollableState.HoveredOverScrollbar
      ensures forall st :: r.Record(st) == Record(st)
    {
      this.(currentState := ScrollableState.HoveredOverScrollbar)
    }

    function Dragging(): (r: CustomScrollableStyle)
      ensures r.currentState == ScrollableState.Dragging
      ensures forall st :: r.Record(st) == Record(st)
    {
      this.(currentState := ScrollableState.Dragging)
    }

    function ActiveHorizontal(): (r: CustomScrollableStyle)
      ensures r.currentState == ScrollableState.ActiveHorizontal
      ensures forall st :: r.Record(st) == Record(st)
    {
      this.(currentState := ScrollableState.ActiveHorizontal)
    }

    function HoveredHorizontal(): (r: CustomScrollableStyle)
      ensures r.currentState == ScrollableState.HoveredHorizontal
      ensures forall st :: r.Record(st) == Record(st)
    {
      this.(currentState := ScrollableState.HoveredHorizontal)
    }

    function HoveredHorizontalOverScrollbar(): (r: CustomScrollableStyle)
      ensures r.currentState == ScrollableState.HoveredHorizontalOverScrollbar
      ensures forall st :: r.Record(st) == Record(st)
    {
      this.(currentState := ScrollableState.HoveredHorizontalOverScrollbar)
    }

    function DraggingHorizontal(): (r: CustomScrollableStyle)
      ensures r.currentState == ScrollableState.DraggingHorizontal
      ensures forall st :: r.Record(st) == Record(st)
    {
      this.(currentState := ScrollableState.DraggingHorizontal)
    }

    /** The selector named by `st`. */
    function Select(st: ScrollableState): (r: CustomScrollableStyle)
      ensures r.currentState == st
      ensures forall st' :: r.Record(st') == Record(st')
    {
      match st
      case Active => Active()
      case Hovered => Hovered()
      case HoveredOverScrollbar => HoveredOverScrollbar()
      case Dragging => Dragging()
      case ActiveHorizontal => ActiveHorizontal()
      case HoveredHorizontal => HoveredHorizontal()
      case HoveredHorizontalOverScrollbar => HoveredHorizontalOverScrollbar()
      case DraggingHorizontal => DraggingHorizontal()
    }

    // The nine per-state setters.

    /** `background`: does nothing while `HoveredOverScrollbar` is selected. */
    function Background(background: Option<Background>): (r: CustomScrollableStyle)
      ensures currentState == ScrollableState.HoveredOverScrollbar ==> r == this
      ensures currentState != ScrollableState.HoveredOverScrollbar ==>
        && r.AgreesExcept(this, Target(currentState))
        && r.Record(Target(currentState)) == Record(Target(currentState)).(background := background)
    {
      match currentState
      case Active => this.(active := active.(background := background))
      case Hovered => this.(hovered := hovered.(background := background))
      case HoveredOverScrollbar => this
      case Dragging => this.(dragging := dragging.(background := background))
      case ActiveHorizontal => this.(activeHorizontal := activeHorizontal.(background := background))
      case HoveredHorizontal => this.(hoveredHorizontal := hoveredHorizontal.(background := background))
      case HoveredHorizontalOverScrollbar =>
        this.(hoveredHorizontalOverScrollbar := hoveredHorizontalOverScrollbar.(background := background))
      case DraggingHorizontal => this.(dragging := dragging.(background := background))
    }

    /** `background_color`: a solid colour background, in every state including `HoveredOverScrollbar`. */
    function BackgroundColor(color: Color): (r: CustomScrollableStyle)
      ensures r.AgreesExcept(this, Target(currentState))
      ensures r.Record(Target(currentState)) == Record(Target(currentState)).(background := Some(Iced.Background.Color(color)))
    {
      var b := Some(Iced.Background.Color(color));
      match currentState
      case Active => this.(active := active.(background := b))
      case Hovered => this.(hovered := hovered.(background := b))
      case HoveredOverScrollbar => this.(hoveredOverScrollbar := hoveredOverScrollbar.(background := b))
      case Dragging => this.(dragging := dragging.(background := b))
      case ActiveHorizontal => this.(activeHorizontal := activeHorizontal.(background := b))
      case HoveredHorizontal => this.(hoveredHorizontal := hoveredHorizontal.(background := b))
      case HoveredHorizontalOverScrollbar =>
        this.(hoveredHorizontalOverScrollbar := hoveredHorizontalOverScrollbar.(background := b))
      case DraggingHorizontal => this.(dragging := dragging.(background := b))
    }

    function BorderRadius(radius: BorderRadius): (r: CustomScrollableStyle)
      ensures r.AgreesExcept(this, Target(currentState))
      ensures r.Record(Target(currentState)) == Record(Target(currentState)).(borderRadius := radius)
    {
      match currentState
      case Active => this.(active := active.(borderRadius := radius))
      case Hovered => this.(hovered := hovered.(borderRadius := radius))
      case HoveredOverScrollbar => this.(hoveredOverScrollbar := hoveredOverScrollbar.(borderRadius := radius))
      case Dragging => this.(dragging := dragging.(borderRadius := radius))
      case ActiveHorizontal => this.(activeHorizontal := activeHorizontal.(borderRadius := radius))
      case HoveredHorizontal => this.(hoveredHorizontal := hoveredHorizontal.(borderRadius := radius))
      case HoveredHorizontalOverScrollbar =>
        this.(hoveredHorizontalOverScrollbar := hoveredHorizontalOverScrollbar.(borderRadius := radius))
      case DraggingHorizontal => this.(dragging := dragging.(borderRadius := radius))
    }

    function BorderWidth(width: F32): (r: CustomScrollableStyle)
      ensures r.AgreesExcept(this, Target(currentState))
      ensures r.Record(Target(currentState)) == Record(Target(currentState)).(borderWidth := width)
    {
      match currentState
      case Active => this.(active := active.(borderWidth := width))
      case Hovered => this.(hovered := hovered.(borderWidth := width))
      case HoveredOverScrollbar => this.(hoveredOverScrollbar := hoveredOverScrollbar.(borderWidth := width))
      case Dragging => this.(dragging := dragging.(borderWidth := width))
      case ActiveHorizontal => this.(activeHorizontal := activeHorizontal.(borderWidth := width))
      case HoveredHorizontal => this.(hoveredHorizontal := hoveredHorizontal.(borderWidth := width))
      case HoveredHorizontalOverScrollbar =>
        this.(hoveredHorizontalOverScrollbar := hoveredHorizontalOverScrollbar.(borderWidth := width))
      case DraggingHorizontal => this.(dragging := dragging.(borderWidth := width))
    }

    function BorderColor(color: Color): (r: CustomScrollableStyle)
      ensures r.AgreesExcept(this, Target(currentState))
      ensures r.Record(Target(currentState)) == Record(Target(currentState)).(borderColor := color)
    {
      match currentState
      case Active => this.(active := active.(borderColor := color))
      case Hovered => this.(hovered := hovered.(borderColor := color))
      case HoveredOverScrollbar => this.(hoveredOverScrollbar := hoveredOverScrollbar.(borderColor := color))
      case Dragging => this.(dragging := dragging.(borderColor := color))
      case ActiveHorizontal => this.(activeHorizontal := activeHorizontal.(borderColor := color))
      case HoveredHorizontal => this.(hoveredHorizontal := hoveredHorizontal.(borderColor := color))
      case HoveredHorizontalOverScrollbar =>
        this.(hoveredHorizontalOverScrollbar := hoveredHorizontalOverScrollbar.(borderColor := color))
      case DraggingHorizontal => this.(dragging := dragging.(borderColor := color))
    }

    function ScrollerColor(color: Color): (r: CustomScrollableStyle)
      ensures r.AgreesExcept(this, Target(currentState))
      ensures r.Record(Target(currentState)) ==
        Record(Target(currentState)).(scroller := Record(Target(currentState)).scroller.(color := color))
    {
      match currentState
      case Active => this.(active := active.(scroller := active.scroller.(color := color)))
      case Hovered => this.(hovered := hovered.(scroller := hovered.scroller.(color := color)))
      case HoveredOverScrollbar =>
        this.(hoveredOverScrollbar := hoveredOverScrollbar.(scroller := hoveredOverScrollbar.scroller.(color := color)))
      case Dragging => this.(dragging := dragging.(scroller := dragging.scroller.(color := color)))
      case ActiveHorizontal =>
        this.(activeHorizontal := activeHorizontal.(scroller := activeHorizontal.scroller.(color := color)))
      case HoveredHorizontal =>
        this.(hoveredHorizontal := hoveredHorizontal.(scroller := hoveredHorizontal.scroller.(color := color)))
      case HoveredHorizontalOverScrollbar =>
        this.(hoveredHorizontalOverScrollbar :=
          hoveredHorizontalOverScrollbar.(scroller := hoveredHorizontalOverScrollbar.scroller.(color := color)))
      case DraggingHorizontal => this.(dragging := dragging.(scroller := dragging.scroller.(color := color)))
    }

    function ScrollerBorderRadius(radius: BorderRadius): (r: CustomScrollableStyle)
      ensures r.AgreesExcept(this, Target(currentState))
      ensures r.Record(Target(currentState)) ==
        Record(Target(currentState)).(scroller := Record(Target(currentState)).scroller.(borderRadius := radius))
    {
      match currentState
      case Active => this.(active := active.(scroller := active.scroller.(borderRadius := radius)))
      case Hovered => this.(hovered := hovered.(scroller := hovered.scroller.(borderRadius := radius)))
      case HoveredOverScrollbar =>
        this.(hoveredOverScrollbar :=
          hoveredOverScrollbar.(scroller := hoveredOverScrollbar.scroller.(borderRadius := radius)))
      case Dragging => this.(dragging := dragging.(scroller := dragging.scroller.(borderRadius := radius)))
      case ActiveHorizontal =>
        this.(activeHorizontal := activeHorizontal.(scroller := activeHorizontal.scroller.(borderRadius := radius)))
      case HoveredHorizontal =>
        this.(hoveredHorizontal := hoveredHorizontal.(scroller := hoveredHorizontal.scroller.(borderRadius := radius)))
      case HoveredHorizontalOverScrollbar =>
        this.(hoveredHorizontalOverScrollbar :=
          hoveredHorizontalOverScrollbar.(scroller := hoveredHorizontalOverScrollbar.scroller.(borderRadius := radius)))
      case DraggingHorizontal => this.(dragging := dragging.(scroller := dragging.scroller.(borderRadius := radius)))
    }

    function ScrollerBorderWidth(width: F32): (r: CustomScrollableStyle)
      ensures r.AgreesExcept(this, Target(currentState))
      ensures r.Record(Target(currentState)) ==
        Record(Target(currentState)).(scroller := Record(Target(currentState)).scroller.(borderWidth := width))
    {
      match currentState
      case Active => this.(active := active.(scroller := active.scroller.(borderWidth := width)))
      case Hovered => this.(hovered := hovered.(scroller := hovered.scroller.(borderWidth := width)))
      case HoveredOverScrollbar =>
        this.(hoveredOverScrollbar :=
          hoveredOverScrollbar.(scroller := hoveredOverScrollbar.scroller.(borderWidth := width)))
      case Dragging => this.(dragging := dragging.(scroller := dragging.scroller.(borderWidth := width)))
      case ActiveHorizontal =>
        this.(activeHorizontal := activeHorizontal.(scroller := activeHorizontal.scroller.(borderWidth := width)))
      case HoveredHorizontal =>
        this.(hoveredHorizontal := hoveredHorizontal.(scroller := hoveredHorizontal.scroller.(borderWidth := width)))
      case HoveredHorizontalOverScrollbar =>
        this.(hoveredHorizontalOverScrollbar :=
          hoveredHorizontalOverScrollbar.(scroller := hoveredHorizontalOverScrollbar.scroller.(borderWidth := width)))
      case DraggingHorizontal => this.(dragging := dragging.(scroller := dragging.scroller.(borderWidth := width)))
    }

    function ScrollerBorderColor(color: Color): (r: CustomScrollableStyle)
      ensures r.AgreesExcept(this, Target(currentState))
      ensures r.Record(Target(currentState)) ==
        Record(Target(currentState)).(scroller := Record(Target(currentState)).scroller.(borderColor := color))
    {
      match currentState
      case Active => this.(active := active.(scroller := active.scroller.(borderColor := color)))
      case Hovered => this.(hovered := hovered.(scroller := hovered.scroller.(borderColor := color)))
      case HoveredOverScrollbar =>
        this.(hoveredOverScrollbar :=
          hoveredOverScrollbar.(scroller := hoveredOverScrollbar.scroller.(borderColor := color)))
      case Dragging => this.(dragging := dragging.(scroller := dragging.scroller.(borderColor := color)))
      case ActiveHorizontal =>
        this.(activeHorizontal := activeHorizontal.(scroller := activeHorizontal.scroller.(borderColor := color)))
      case HoveredHorizontal =>
        this.(hoveredHorizontal := hoveredHorizontal.(scroller := hoveredHorizontal.scroller.(borderColor := color)))
      case HoveredHorizontalOverScrollbar =>
        this.(hoveredHorizontalOverScrollbar :=
          hoveredHorizontalOverScrollbar.(scroller := hoveredHorizontalOverScrollbar.scroller.(borderColor := color)))
      case DraggingHorizontal => this.(dragging := dragging.(scroller := dragging.scroller.(borderColor := color)))
    }

    // The `StyleSheet` getters the toolkit draws the widget with.

    function SheetActive(): (r: Scrollbar)
      ensures r == Record(ScrollableState.Active)
    {
      active
    }

    /** `hovered`: the over-the-scrollbar record when the mouse is over the scrollbar. */
    function SheetHovered(isMouseOverScrollbar: bool): (r: Scrollbar)
      ensures isMouseOverScrollbar ==> r == Record(ScrollableState.HoveredOverScrollbar)
      ensures !isMouseOverScrollbar ==> r == Record(ScrollableState.Hovered)
    {
      if isMouseOverScrollbar then hoveredOverScrollbar else hovered
    }

    function SheetDragging(): (r: Scrollbar)
      ensures r == Record(ScrollableState.Dragging)
    {
      dragging
    }

    function SheetActiveHorizontal(): (r: Scrollbar)
      ensures r == Record(ScrollableState.ActiveHorizontal)
    {
      activeHorizontal
    }

    /** `hovered_horizontal`: as `hovered`, for the horizontal records. */
    function SheetHoveredHorizontal(isMouseOverScrollbar: bool): (r: Scrollbar)
      ensures isMouseOverScrollbar ==> r == Record(ScrollableState.HoveredHorizontalOverScrollbar)
      ensures !isMouseOverScrollbar ==> r == Record(ScrollableState.HoveredHorizontal)
    {
      if isMouseOverScrollbar then hoveredHorizontalOverScrollbar else hoveredHorizontal
    }

    function SheetDraggingHorizontal(): (r: Scrollbar)
      ensures r == Record(ScrollableState.DraggingHorizontal)
    {
      draggingHorizontal
    }
  }

  /** One call of a chain applied to `s`. */
  function Step(s: CustomScrollableStyle, c: Call): CustomScrollableStyle {
    match c
    case Select(st) => s.Select(st)
    case SetBackground(b) => s.Background(b)
    case SetBackgroundColor(color) => s.BackgroundColor(color)
    case SetBorderRadius(radius) => s.BorderRadius(radius)
    case SetBorderWidth(width) => s.BorderWidth(width)
    case SetBorderColor(color) => s.BorderColor(color)
    case SetScrollerColor(color) => s.ScrollerColor(color)
    case SetScrollerBorderRadius(radius) => s.ScrollerBorderRadius(radius)
    case SetScrollerBorderWidth(width) => s.ScrollerBorderWidth(width)
    case SetScrollerBorderColor(color) => s.ScrollerBorderColor(color)
  }

  /** The calls of a chain applied to `s` from left to right, as in `s.hovered().border_width(w)…`. */
  function Chain(s: CustomScrollableStyle, calls: seq<Call>): CustomScrollableStyle {
    Chains.Fold(Step, s, calls)
  }

  /** The state a call selects, if it is a selector. */
  function SelectedBy(c: Call): Option<ScrollableState> {
    if c.Select? then Some(c.state) else None
  }

  /** A background the toolkit draws as a solid colour, or none at all: anything but a gradient. */
  predicate SolidOrNone(b: Option<Background>) {
    b.None? || b.value.Color?
  }

  /** The selected state and the eight records are all there is to a style. */
  lemma RecordsDetermineStyle(a: CustomScrollableStyle, b: CustomScrollableStyle)
    requires a.currentState == b.currentState
    requires forall st :: a.Record(st) == b.Record(st)
    ensures a == b
  {
    assert a.Record(Active) == b.Record(Active) && a.Record(Hovered) == b.Record(Hovered);
    assert a.Record(HoveredOverScrollbar) == b.Record(HoveredOverScrollbar);
    assert a.Record(Dragging) == b.Record(Dragging);
    assert a.Record(ActiveHorizontal) == b.Record(ActiveHorizontal);
    assert a.Record(HoveredHorizontal) == b.Record(HoveredHorizontal);
    assert a.Record(HoveredHorizontalOverScrollbar) == b.Record(HoveredHorizontalOverScrollbar);
    assert a.Record(DraggingHorizontal) == b.Record(DraggingHorizontal);
  }

  /** Of two selectors in a row, the second decides; the records are as before. */
  lemma LastSelectorWins(s: CustomScrollableStyle, first: ScrollableState, second: ScrollableState)
    ensures s.Select(first).Select(second) == s.Select(second)
  {
    RecordsDetermineStyle(s.Select(first).Select(second), s.Select(second));
  }

  /** A selector sets the state; no setter changes it. */
  lemma StepState(s: CustomScrollableStyle, c: Call)
    ensures Step(s, c).currentState == SelectedBy(c).UnwrapOr(s.currentState)
  {
  }

  /** No call writes the `dragging_horizontal` record. */
  lemma StepKeepsDraggingHorizontal(s: CustomScrollableStyle, c: Call)
    ensures Step(s, c).draggingHorizontal == s.draggingHorizontal
  {
    assert Target(s.currentState) != DraggingHorizontal;
    assert Step(s, c).Record(DraggingHorizontal) == s.Record(DraggingHorizontal);
  }

  /** After a chain, the selected state is the one its last selector named; the last selector wins. */
  lemma ChainState(s: CustomScrollableStyle, calls: seq<Call>)
    ensures Chain(s, calls).currentState == Chains.LastPicked(SelectedBy, calls, s.currentState)
  {
    forall s': CustomScrollableStyle, c: Call
      ensures Step(s', c).currentState == SelectedBy(c).UnwrapOr(s'.currentState)
    {
      StepState(s', c);
    }
    Chains.FoldLastPicked(Step, (t: CustomScrollableStyle) => t.currentState, SelectedBy, s, calls);
  }

  /** No chain of calls changes the `dragging_horizontal` record. */
  lemma ChainKeepsDraggingHorizontal(s: CustomScrollableStyle, calls: seq<Call>)
    ensures Chain(s, calls).draggingHorizontal == s.draggingHorizontal
  {
    var keeps := (t: CustomScrollableStyle) => t.draggingHorizontal == s.draggingHorizontal;
    forall s': CustomScrollableStyle, c: Call | keeps(s') ensures keeps(Step(s', c)) {
      StepKeepsDraggingHorizontal(s', c);
    }
    Chains.FoldKeeps(Step, keeps, s, calls);
  }

  /** Whatever chain follows `new()`, the `dragging_horizontal` getter returns the default record. */
  lemma BuiltDraggingHorizontalIsDefault(calls: seq<Call>)
    ensures Chain(CustomScrollableStyle.New(), calls).SheetDraggingHorizontal() == DEFAULT_SCROLLBAR
  {
    var s := CustomScrollableStyle.New();
    assert s.Record(DraggingHorizontal) == DEFAULT_SCROLLBAR;
    ChainKeepsDraggingHorizontal(s, calls);
  }

  /**
   * Only `background_color` changes the over-the-scrollbar background, and what it writes is a solid
   * colour; `background` does not reach it.
   */
  lemma OnlyBackgroundColorWritesOverScrollbar(s: CustomScrollableStyle, c: Call)
    ensures Step(s, c).hoveredOverScrollbar.background != s.hoveredOverScrollbar.background ==>
      && c.SetBackgroundColor?
      && Step(s, c).hoveredOverScrollbar.background == Some(Iced.Background.Color(c.color))
  {
    assert Step(s, c).Record(HoveredOverScrollbar).background == Step(s, c).hoveredOverScrollbar.background;
  }

  /** A chain never puts a gradient into the over-the-scrollbar record. */
  lemma ChainKeepsOverScrollbarSolid(s: CustomScrollableStyle, calls: seq<Call>)
    requires SolidOrNone(s.hoveredOverScrollbar.background)
    ensures SolidOrNone(Chain(s, calls).hoveredOverScrollbar.background)
  {
    var keeps := (t: CustomScrollableStyle) => SolidOrNone(t.hoveredOverScrollbar.background);
    forall s': CustomScrollableStyle, c: Call | keeps(s') ensures keeps(Step(s', c)) {
      OnlyBackgroundColorWritesOverScrollbar(s', c);
    }
    Chains.FoldKeeps(Step, keeps, s, calls);
  }

  /** Whatever chain follows `new()`, `hovered(true)` never has a gradient background. */
  lemma BuiltOverScrollbarNeverGradient(calls: seq<Call>)
    ensures SolidOrNone(Chain(CustomScrollableStyle.New(), calls).SheetHovered(true).background)
  {
    ChainKeepsOverScrollbarSolid(CustomScrollableStyle.New(), calls);
  }

  /** `background` while `HoveredOverScrollbar` is selected changes nothing. */
  lemma BackgroundIgnoredOverScrollbar(s: CustomScrollableStyle, background: Option<Background>)
    ensures s.HoveredOverScrollbar().Background(background) == s.HoveredOverScrollbar()
  {
  }

  /** `background_color` while `HoveredOverScrollbar` is selected shows in `hovered(true)`. */
  lemma BackgroundColorShownOverScrollbar(s: CustomScrollableStyle, color: Color)
    ensures s.HoveredOverScrollbar().BackgroundColor(color).SheetHovered(true).background
      == Some(Iced.Background.Color(color))
  {
  }

  /** A setter while `DraggingHorizontal` is selected shows in `dragging`, not in `dragging_horizontal`. */
  lemma DraggingHorizontalWritesDragging(s: CustomScrollableStyle, width: F32)
    ensures s.DraggingHorizontal().BorderWidth(width).SheetDragging() == s.dragging.(borderWidth := width)
    ensures s.DraggingHorizontal().BorderWidth(width).SheetDraggingHorizontal() == s.SheetDraggingHorizontal()
  {
  }
}
