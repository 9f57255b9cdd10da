/**
 * `CustomTextInputStyle`: one text-input appearance per interaction state,
 * four state-independent colours, and a selector that says which of the
 * four appearances the next per-state setter writes.
 */
module TextInput {
  import opened Wrappers
  import opened Iced
  import Chains

  /** `TextInputState`; `Active` is its `Default`. */
  datatype TextInputState = Active | Hovered | Disabled | Focused

  /** `text_input::Appearance`. */
  datatype Appearance = Appearance(
    background: Background,
    borderRadius: BorderRadius,
    borderWidth: F32,
    borderColor: Color,
    iconColor: Color)

  /** The appearance `new()` puts in every state: black background, white border and icon, zero radius and width. */
  const DEFAULT_APPEARANCE: Appearance :=
    Appearance(Background.Color(BLACK), RadiusFrom(ZERO), ZERO, WHITE, WHITE)

  /**
   * The appearance `background` writes while `st` is selected: its own,
   * except that `Focused` writes the `active` appearance. Every other
   * per-state setter writes the appearance of `st` itself.
   */
  function BackgroundTarget(st: TextInputState): TextInputState {
    if st == Focused then Active else st
  }

  /** One call of a builder chain. */
  datatype Call =
    | Select(state: TextInputState)
    | SetBackground(background: Background)
    | SetBackgroundColor(color: Color)
    | SetBorderRadius(radius: BorderRadius)
    | SetBorderWidth(width: F32)
    | SetBorderColor(color: Color)
    | SetIconColor(color: Color)
    | SetPlaceholderColor(color: Color)
    | SetValueColor(color: Color)
    | SetDisabledColor(color: Color)
    | SetSelectionColor(color: Color)

  datatype CustomTextInputStyle = CustomTextInputStyle(
    active: Appearance,
    focused: Appearance,
    hovered: Appearance,
    disabled: Appearance,
    placeholderColor: Color,
    valueColor: Color,
    disabledColor: Color,
    selectionColor: Color,
    currentState: TextInputState)
  {
    /** The appearance stored for state `st`. */
    function Record(st: TextInputState): Appearance {
      match st
      case Active => active
      case Hovered => hovered
      case Disabled => disabled
      case Focused => focused
    }

    /** The four state-independent colours are those of `that`. */
    predicate SameColors(that: CustomTextInputStyle) {
      && placeholderColor == that.placeholderColor
      && valueColor == that.valueColor
      && disabledColor == that.disabledColor
      && selectionColor == that.selectionColor
    }

    /** `that` has this style's selected state and colours and the same appearance in every state but `t`. */
    predicate AgreesExcept(that: CustomTextInputStyle, t: TextInputState) {
      && currentState == that.currentState
      && SameColors(that)
      && forall st :: st != t ==> Record(st) == that.Record(st)
    }

    /** `CustomTextInputStyle::new`: the same default appearance in all four states, `Active` selected. */
    static function New(): (s: CustomTextInputStyle)
      ensures s.currentState == TextInputState.Active
      ensures forall st :: s.Record(st) == DEFAULT_APPEARANCE
      ensures DEFAULT_APPEARANCE.background == Iced.Background.Color(BLACK)
      ensures DEFAULT_APPEARANCE.borderColor == WHITE && DEFAULT_APPEARANCE.iconColor == WHITE
      ensures DEFAULT_APPEARANCE.borderWidth == ZERO && DEFAULT_APPEARANCE.borderRadius == DEFAULT_RADIUS
      ensures s.placeholderColor == s.valueColor == s.disabledColor == s.selectionColor == DEFAULT_COLOR
    {
      var d := DEFAULT_APPEARANCE;
      CustomTextInputStyle(d, d, d, d, DEFAULT_COLOR, DEFAULT_COLOR, DEFAULT_COLOR, DEFAULT_COLOR, TextInputState.Active)
    }

    // The four state selectors.

    function Active(): (r: CustomTextInputStyle)
      ensures r.currentState == TextInputState.Active
      ensures r.SameColors(this) && forall st :: r.Record(st) == Record(st)
    {
      this.(currentState := TextInputState.Active)
    }

    function Hovered(): (r: CustomTextInputStyle)
      ensures r.currentState == TextInputState.Hovered
      ensures r.SameColors(this) && forall st :: r.Record(st) == Record(st)
    {
      this.(currentState := TextInputState.Hovered)
    }

    function Disabled(): (r: CustomTextInputStyle)
      ensures r.currentState == TextInputState.Disabled
      ensures r.SameColors(this) && forall st :: r.Record(st) == Record(st)
    {
      this.(currentState := TextInputState.Disabled)
    }

    function Focused(): (r: CustomTextInputStyle)
      ensures r.currentState == TextInputState.Focused
      ensures r.SameColors(this) && forall st :: r.Record(st) == Record(st)
    {
      this.(currentState := TextInputState.Focused)
    }

    /** The selector named by `st`. */
    function Select(st: TextInputState): (r: CustomTextInputStyle)
      ensures r.currentState == st
      ensures r.SameColors(this) && forall st' :: r.Record(st') == Record(st')
    {
      match st
      case Active => Active()
      case Hovered => Hovered()
      case Disabled => Disabled()
      case Focused => Focused()
    }

    // The six per-state setters.

    /** `background`: while `Focused` is selected it writes the `active` appearance. */
    function Background(background: Background): (r: CustomTextInputStyle)
      ensures r.AgreesExcept(this, BackgroundTarget(currentState))
      ensures r.Record(BackgroundTarget(currentState)) == Record(BackgroundTarget(currentState)).(background := background)
    {
      match currentState
      case Active => this.(active := active.(background := background))
      case Hovered => this.(hovered := hovered.(background := background))
      case Disabled => this.(disabled := disabled.(background := background))
      case Focused => this.(active := active.(background := background))
    }

    /** `background_color`: a solid colour background for the selected state, `Focused` included. */
    function BackgroundColor(color: Color): (r: CustomTextInputStyle)
      ensures r.AgreesExcept(this, currentState)
      ensures r.Record(currentState) == Record(currentState).(background := Iced.Background.Color(color))
    {
      var b := Iced.Background.Color(color);
      match currentState
      case Active => this.(active := active.(background := b))
      case Hovered => this.(hovered := hovered.(background := b))
      case Disabled => this.(disabled := disabled.(background := b))
      case Focused => this.(focused := focused.(background := b))
    }

    function BorderRadius(radius: BorderRadius): (r: CustomTextInputStyle)
      ensures r.AgreesExcept(this, currentState)
      ensures r.Record(currentState) == Record(currentState).(borderRadius := radius)
    {
      match currentState
      case Active => this.(active := active.(borderRadius := radius))
      case Hovered => this.(hovered := hovered.(borderRadius := radius))
      case Disabled => this.(disabled := disabled.(borderRadius := radius))
      case Focused => this.(focused := focused.(borderRadius := radius))
    }

    function BorderWidth(width: F32): (r: CustomTextInputStyle)
      ensures r.AgreesExcept(this, currentState)
      ensures r.Record(currentState) == Record(currentState).(borderWidth := width)
    {
      match currentState
      case Active => this.(active := active.(borderWidth := width))
      case Hovered => this.(hovered := hovered.(borderWidth := width))
      case Disabled => this.(disabled := disabled.(borderWidth := width))
      case Focused => this.(focused := focused.(borderWidth := width))
    }

    function BorderColor(color: Color): (r: CustomTextInputStyle)
      ensures r.AgreesExcept(this, currentState)
      ensures r.Record(currentState) == Record(currentState).(borderColor := color)
    {
      match currentState
      case Active => this.(active := active.(borderColor := color))
      case Hovered => this.(hovered := hovered.(borderColor := color))
      case Disabled => this.(disabled := disabled.(borderColor := color))
      case Focused => this.(focused := focused.(borderColor := color))
    }

    function IconColor(color: Color): (r: CustomTextInputStyle)
      ensures r.AgreesExcept(this, currentState)
      ensures r.Record(currentState) == Record(currentState).(iconColor := color)
    {
      match currentState
      case Active => this.(active := active.(iconColor := color))
      case Hovered => this.(hovered := hovered.(iconColor := color))
      case Disabled => this.(disabled := disabled.(iconColor := color))
      case Focused => this.(focused := focused.(iconColor := color))
    }

    // The four state-independent colour setters: each writes its own colour and nothing else.

    function PlaceholderColor(color: Color): (r: CustomTextInputStyle)
      ensures r.placeholderColor == color
      ensures r.(placeholderColor := placeholderColor) == this
    {
      this.(placeholderColor := color)
    }

    function ValueColor(color: Color): (r: CustomTextInputStyle)
      ensures r.valueColor == color
      ensures r.(valueColor := valueColor) == this
    {
      this.(valueColor := color)
    }

    function DisabledColor(color: Color): (r: CustomTextInputStyle)
      ensures r.disabledColor == color
      ensures r.(disabledColor := disabledColor) == this
    {
      this.(disabledColor := color)
    }

    function SelectionColor(color: Color): (r: CustomTextInputStyle)
      ensures r.selectionColor == color
      ensures r.(selectionColor := selectionColor) == this
    {
      this.(selectionColor := color)
    }

    // The `StyleSheet` getters the toolkit draws the widget with.

    function SheetActive(): (r: Appearance)
      ensures r == Record(TextInputState.Active)
    {
      active
    }

    function SheetFocused(): (r: Appearance)
      ensures r == Record(TextInputState.Focused)
    {
      focused
    }

    function SheetHovered(): (r: Appearance)
      ensures r == Record(TextInputState.Hovered)
    {
      hovered
    }

    function SheetDisabled(): (r: Appearance)
      ensures r == Record(TextInputState.Disabled)
    {
      disabled
    }

    /** `placeholder_color`: the colour last given to the `placeholder_color` setter. */
    function SheetPlaceholderColor(): (r: Color)
      ensures PlaceholderColor(r) == this
    {
      placeholderColor
    }

    function SheetValueColor(): (r: Color)
      ensures ValueColor(r) == this
    {
      valueColor
    }

    function SheetDisabledColor(): (r: Color)
      ensures DisabledColor(r) == this
    {
      disabledColor
    }

    function SheetSelectionColor(): (r: Color)
      ensures SelectionColor(r) == this
    {
      selectionColor
    }
  }

  /** One call of a chain applied to `s`. */
  function Step(s: CustomTextInputStyle, c: Call): CustomTextInputStyle {
    match c
    case Select(st) => s.Select(st)
    case SetBackground(b) => s.Background(b)
    case SetBackgroundColor(color) => s.BackgroundColor(color)
    case SetBorderRadius(radius) => s.BorderRadius(radius)
    case SetBorderWidth(width) => s.BorderWidth(width)
    case SetBorderColor(color) => s.BorderColor(color)
    case SetIconColor(color) => s.IconColor(color)
    case SetPlaceholderColor(color) => s.PlaceholderColor(color)
    case SetValueColor(color) => s.ValueColor(color)
    case SetDisabledColor(color) => s.DisabledColor(color)
    case SetSelectionColor(color) => s.SelectionColor(color)
  }

  /** The calls of a chain applied to `s` from left to right. */
  function Chain(s: CustomTextInputStyle, calls: seq<Call>): CustomTextInputStyle {
    Chains.Fold(Step, s, calls)
  }

  /** The state a call selects, if it is a selector. */
  function SelectedBy(c: Call): Option<TextInputState> {
    if c.Select? then Some(c.state) else None
  }

  /** The selected state, the four appearances and the four colours are all there is to a style. */
  lemma RecordsDetermineStyle(a: CustomTextInputStyle, b: CustomTextInputStyle)
    requires a.currentState == b.currentState && a.SameColors(b)
    requires forall st :: a.Record(st) == b.Record(st)
    ensures a == b
  {
    assert a.Record(Active) == b.Record(Active) && a.Record(Hovered) == b.Record(Hovered);
    assert a.Record(Disabled) == b.Record(Disabled) && a.Record(Focused) == b.Record(Focused);
  }

  /** Of two selectors in a row, the second decides; nothing else changes. */
  lemma LastSelectorWins(s: CustomTextInputStyle, first: TextInputState, second: TextInputState)
    ensures s.Select(first).Select(second) == s.Select(second)
  {
    RecordsDetermineStyle(s.Select(first).Select(second), s.Select(second));
  }

  /** A selector sets the state; no setter changes it. */
  lemma StepState(s: CustomTextInputStyle, c: Call)
    ensures Step(s, c).currentState == SelectedBy(c).UnwrapOr(s.currentState)
  {
  }

  /** After a chain, the selected state is the one its last selector named. */
  lemma ChainState(s: CustomTextInputStyle, calls: seq<Call>)
    ensures Chain(s, calls).currentState == Chains.LastPicked(SelectedBy, calls, s.currentState)
  {
    forall s': CustomTextInputStyle, c: Call
      ensures Step(s', c).currentState == SelectedBy(c).UnwrapOr(s'.currentState)
    {
      StepState(s', c);
    }
    Chains.FoldLastPicked(Step, (t: CustomTextInputStyle) => t.currentState, SelectedBy, s, calls);
  }

  /**
   * Only `background_color` changes the `focused` background, and what it writes is a solid colour;
   * `background` does not reach it.
   */
  lemma OnlyBackgroundColorWritesFocused(s: CustomTextInputStyle, c: Call)
    ensures Step(s, c).focused.background != s.focused.background ==>
      && c.SetBackgroundColor?
      && Step(s, c).focused.background == Iced.Background.Color(c.color)
  {
    assert Step(s, c).Record(Focused).background == Step(s, c).focused.background;
  }

  /** A chain never puts a gradient into the `focused` appearance. */
  lemma ChainKeepsFocusedSolid(s: CustomTextInputStyle, calls: seq<Call>)
    requires s.focused.background.Color?
    ensures Chain(s, calls).focused.background.Color?
  {
    var keeps := (t: CustomTextInputStyle) => t.focused.background.Color?;
    forall s': CustomTextInputStyle, c: Call | keeps(s') ensures keeps(Step(s', c)) {
      OnlyBackgroundColorWritesFocused(s', c);
    }
    Chains.FoldKeeps(Step, keeps, s, calls);
  }

  /** Whatever chain follows `new()`, the `focused` getter shows a solid colour background. */
  lemma BuiltFocusedBackgroundIsSolid(calls: seq<Call>)
    ensures Chain(CustomTextInputStyle.New(), calls).SheetFocused().background.Color?
  {
    ChainKeepsFocusedSolid(CustomTextInputStyle.New(), calls);
  }

  /** `background` while `Focused` is selected shows in `active` and leaves `focused` as it was. */
  lemma FocusedBackgroundWritesActive(s: CustomTextInputStyle, background: Background)
    ensures s.Focused().Background(background).SheetActive() == s.active.(background := background)
    ensures s.Focused().Background(background).SheetFocused() == s.SheetFocused()
  {
  }

  /** `background_color` while `Focused` is selected shows in `focused`. */
  lemma FocusedBackgroundColorWritesFocused(s: CustomTextInputStyle, color: Color)
    ensures s.Focused().BackgroundColor(color).SheetFocused() == s.focused.(background := Iced.Background.Color(color))
  {
  }

  /** A colour setter has the same effect whichever state is selected. */
  lemma ColorSettersIgnoreState(s: CustomTextInputStyle, st: TextInputState, color: Color)
    ensures s.Select(st).PlaceholderColor(color) == s.PlaceholderColor(color).Select(st)
    ensures s.Select(st).ValueColor(color) == s.ValueColor(color).Select(st)
    ensures s.Select(st).DisabledColor(color) == s.DisabledColor(color).Select(st)
    ensures s.Select(st).SelectionColor(color) == s.SelectionColor(color).Select(st)
  {
  }
}
