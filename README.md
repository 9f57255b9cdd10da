# Style builders for a GUI toolkit's widgets, in Dafny

The repository provides five "style builders" for widgets of the iced GUI
toolkit. Each builder is a plain copyable record. It holds one appearance
record per interaction state of its widget, and its fluent setters return an
updated copy. The toolkit reads the records back through its `StyleSheet`
getters when it draws the widget.

- `CustomScrollableStyle` (`scrollable.dfy`, module `Scrollable`) holds eight scrollbar records: active, hovered, hovered over the scrollbar, dragging, and the same four for the horizontal bar. A `current_state` selector picks which record the next per-state setter writes.
- `CustomTextInputStyle` (`text_input.dfy`, module `TextInput`) holds four appearances (active, focused, hovered, disabled), a selector, and four colours that do not depend on the state.
- `CustomContainerStyle`, `CustomTextStyle` and `CustomSvgStyle` (`container.dfy`, `text.dfy`, `svg.dfy`) each hold one record and have one setter per field.

Every builder is a pure value. So each one is a Dafny `datatype`, and each
setter, selector and getter is a member function whose result is the
updated copy. Module `Iced` (`iced.dfy`) holds the toolkit's value types:

- An `f32` is kept as its 32-bit pattern and is never computed with.
- A colour is four such channels, so `BLACK`, `WHITE` and `TRANSPARENT` are distinct constants.
- A border radius has four corners.
- A background is `Color(c)` or an opaque gradient.

Module `Wrappers` holds Rust's `Option`.

Each per-state setter has the same contract shape. `Target` (scrollable)
and `BackgroundTarget` (text input) name the record that a setter writes in
each state. `Record(st)` reads the record stored for state `st`. The
setter's contract has two parts:

- In the targeted record, exactly the named field takes the new value.
- `AgreesExcept` says that the selected state, every other record and, for the text input, the four colours stay as they were.

`RecordsDetermineStyle` shows that these parts determine the whole result.

Builder chains such as `new().hovered().border_width(w)` are modelled as a
sequence of `Call`s that `Chain` applies from left to right. `Chain` is an
instance of the generic fold in module `Chains` (`chains.dfy`). That module
proves three facts once, by induction, for both stateful builders:

- A chain can be cut in two.
- A property that every call keeps holds after any chain.
- A value that only some calls set ends up as the one set last.

The code has three irregular dispatches. The model keeps them exactly as
written:

- `background` does nothing while `HoveredOverScrollbar` is selected.
- Every scrollable setter in `DraggingHorizontal` writes the `dragging` record, so `dragging_horizontal` never changes after `new()`.
- The text input's `background` in `Focused` writes the `active` appearance.

The lemmas below state what follows from these dispatches as written.

## Model

| member | source | states |
|---|---|---|
| `Chains.FoldAppend` | src/styles/scrollable.rs:71-235 | applying a chain of fluent calls in two parts is the same as applying it whole |
| `Chains.FoldKeeps` | src/styles/scrollable.rs:71-235 | a property that every fluent call keeps holds after any chain of them |
| `Chains.FoldLastPicked` | src/styles/scrollable.rs:71-109 | when each call either sets an observed value or leaves it alone, after a chain the value is the one set by the last call that set it, or the initial value if none did |
| `Scrollable.CustomScrollableStyle.New` | src/styles/scrollable.rs:31-55 | all eight records equal one default (no background, zero border and scroller widths); `Active` is selected |
| `Scrollable.CustomScrollableStyle.Active` | src/styles/scrollable.rs:71-74 | selects `Active`; every record unchanged |
| `Scrollable.CustomScrollableStyle.Hovered` | src/styles/scrollable.rs:76-79 | selects `Hovered`; every record unchanged |
| `Scrollable.CustomScrollableStyle.HoveredOverScrollbar` | src/styles/scrollable.rs:81-84 | selects `HoveredOverScrollbar`; every record unchanged |
| `Scrollable.CustomScrollableStyle.Dragging` | src/styles/scrollable.rs:86-89 | selects `Dragging`; every record unchanged |
| `Scrollable.CustomScrollableStyle.ActiveHorizontal` | src/styles/scrollable.rs:91-94 | selects `ActiveHorizontal`; every record unchanged |
| `Scrollable.CustomScrollableStyle.HoveredHorizontal` | src/styles/scrollable.rs:96-99 | selects `HoveredHorizontal`; every record unchanged |
| `Scrollable.CustomScrollableStyle.HoveredHorizontalOverScrollbar` | src/styles/scrollable.rs:101-104 | selects `HoveredHorizontalOverScrollbar`; every record unchanged |
| `Scrollable.CustomScrollableStyle.DraggingHorizontal` | src/styles/scrollable.rs:106-109 | selects `DraggingHorizontal`; every record unchanged |
| `Scrollable.CustomScrollableStyle.Select` | src/styles/scrollable.rs:71-109 | the selector for any state sets exactly that state and keeps all eight records |
| `Scrollable.CustomScrollableStyle.Background` | src/styles/scrollable.rs:111-123 | no change at all in `HoveredOverScrollbar`; otherwise only the target record's background is set, and the state and all other records are kept |
| `Scrollable.CustomScrollableStyle.BackgroundColor` | src/styles/scrollable.rs:125-137 | only the target record's background becomes `Some(Color(c))`, in `HoveredOverScrollbar` too; the state and other records are kept |
| `Scrollable.CustomScrollableStyle.BorderRadius` | src/styles/scrollable.rs:139-151 | only the target record's border radius changes; `DraggingHorizontal` targets `dragging` |
| `Scrollable.CustomScrollableStyle.BorderWidth` | src/styles/scrollable.rs:153-165 | only the target record's border width changes; `DraggingHorizontal` targets `dragging` |
| `Scrollable.CustomScrollableStyle.BorderColor` | src/styles/scrollable.rs:167-179 | only the target record's border colour changes; `DraggingHorizontal` targets `dragging` |
| `Scrollable.CustomScrollableStyle.ScrollerColor` | src/styles/scrollable.rs:181-193 | only the target record's scroller colour changes |
| `Scrollable.CustomScrollableStyle.ScrollerBorderRadius` | src/styles/scrollable.rs:195-207 | only the target record's scroller border radius changes |
| `Scrollable.CustomScrollableStyle.ScrollerBorderWidth` | src/styles/scrollable.rs:209-221 | only the target record's scroller border width changes |
| `Scrollable.CustomScrollableStyle.ScrollerBorderColor` | src/styles/scrollable.rs:223-235 | only the target record's scroller border colour changes |
| `Scrollable.CustomScrollableStyle.SheetActive` | src/styles/scrollable.rs:245-247 | returns the record stored for `Active` |
| `Scrollable.CustomScrollableStyle.SheetHovered` | src/styles/scrollable.rs:249-255 | returns the `HoveredOverScrollbar` record when the mouse is over the scrollbar, otherwise the `Hovered` record |
| `Scrollable.CustomScrollableStyle.SheetDragging` | src/styles/scrollable.rs:258-260 | returns the record stored for `Dragging` |
| `Scrollable.CustomScrollableStyle.SheetActiveHorizontal` | src/styles/scrollable.rs:262-264 | returns the record stored for `ActiveHorizontal` |
| `Scrollable.CustomScrollableStyle.SheetHoveredHorizontal` | src/styles/scrollable.rs:266-272 | returns the `HoveredHorizontalOverScrollbar` record when the mouse is over the scrollbar, otherwise the `HoveredHorizontal` record |
| `Scrollable.CustomScrollableStyle.SheetDraggingHorizontal` | src/styles/scrollable.rs:274-276 | returns the record stored for `DraggingHorizontal` |
| `Scrollable.RecordsDetermineStyle` | src/styles/scrollable.rs:4-15 | two styles with the same state and the same eight records are equal, so the setter contracts fix the whole result |
| `Scrollable.LastSelectorWins` | src/styles/scrollable.rs:71-109 | of two selectors applied in a row, the second wins and nothing else changes |
| `Scrollable.StepState` | src/styles/scrollable.rs:71-235 | a selector sets the state it names; none of the nine setters changes the state |
| `Scrollable.StepKeepsDraggingHorizontal` | src/styles/scrollable.rs:111-235 | no single call writes the `dragging_horizontal` record |
| `Scrollable.ChainState` | src/styles/scrollable.rs:71-235 | after any chain, the selected state is the one named by its last selector, or the initial state if it has none |
| `Scrollable.ChainKeepsDraggingHorizontal` | src/styles/scrollable.rs:120-234 | no chain of calls changes the `dragging_horizontal` record |
| `Scrollable.BuiltDraggingHorizontalIsDefault` | src/styles/scrollable.rs:31-55 | after `new()` and any chain, `dragging_horizontal()` returns the default record |
| `Scrollable.OnlyBackgroundColorWritesOverScrollbar` | src/styles/scrollable.rs:111-235 | a call that changes the over-the-scrollbar background is a `background_color(c)` call, and it leaves `Some(Color(c))` there; `background` never reaches it |
| `Scrollable.ChainKeepsOverScrollbarSolid` | src/styles/scrollable.rs:111-137 | no chain puts a gradient into the over-the-scrollbar record |
| `Scrollable.BuiltOverScrollbarNeverGradient` | src/styles/scrollable.rs:115 | after `new()` and any chain, `hovered(true)` has no background or a solid colour, never a gradient |
| `Scrollable.BackgroundIgnoredOverScrollbar` | src/styles/scrollable.rs:115 | `background` after `hovered_over_scrollbar()` changes nothing |
| `Scrollable.BackgroundColorShownOverScrollbar` | src/styles/scrollable.rs:129 | `background_color(c)` after `hovered_over_scrollbar()` shows as `Some(Color(c))` in `hovered(true)` |
| `Scrollable.DraggingHorizontalWritesDragging` | src/styles/scrollable.rs:162 | a setter after `dragging_horizontal()` shows in `dragging()` and leaves `dragging_horizontal()` as it was |
| `TextInput.CustomTextInputStyle.New` | src/styles/text_input.rs:27-46 | all four appearances equal one default (background `Color(BLACK)`, white border and icon, zero width and radius); the colours are the default colour; `Active` is selected |
| `TextInput.CustomTextInputStyle.Active` | src/styles/text_input.rs:62-65 | selects `Active`; appearances and colours unchanged |
| `TextInput.CustomTextInputStyle.Hovered` | src/styles/text_input.rs:67-70 | selects `Hovered`; appearances and colours unchanged |
| `TextInput.CustomTextInputStyle.Disabled` | src/styles/text_input.rs:72-75 | selects `Disabled`; appearances and colours unchanged |
| `TextInput.CustomTextInputStyle.Focused` | src/styles/text_input.rs:77-80 | selects `Focused`; appearances and colours unchanged |
| `TextInput.CustomTextInputStyle.Select` | src/styles/text_input.rs:62-80 | the selector for any state sets exactly that state and keeps everything else |
| `TextInput.CustomTextInputStyle.Background` | src/styles/text_input.rs:82-90 | only the background of the target appearance changes; in `Focused` the target is `active` |
| `TextInput.CustomTextInputStyle.BackgroundColor` | src/styles/text_input.rs:92-100 | only the selected state's own background becomes `Color(c)`, including `focused` |
| `TextInput.CustomTextInputStyle.BorderRadius` | src/styles/text_input.rs:102-110 | only the selected state's border radius changes |
| `TextInput.CustomTextInputStyle.BorderWidth` | src/styles/text_input.rs:112-120 | only the selected state's border width changes |
| `TextInput.CustomTextInputStyle.BorderColor` | src/styles/text_input.rs:122-130 | only the selected state's border colour changes |
| `TextInput.CustomTextInputStyle.IconColor` | src/styles/text_input.rs:132-140 | only the selected state's icon colour changes |
| `TextInput.CustomTextInputStyle.PlaceholderColor` | src/styles/text_input.rs:142-145 | sets the placeholder colour, whatever the state; nothing else changes |
| `TextInput.CustomTextInputStyle.ValueColor` | src/styles/text_input.rs:147-150 | sets the value colour, whatever the state; nothing else changes |
| `TextInput.CustomTextInputStyle.DisabledColor` | src/styles/text_input.rs:152-155 | sets the disabled colour, whatever the state; nothing else changes |
| `TextInput.CustomTextInputStyle.SelectionColor` | src/styles/text_input.rs:157-160 | sets the selection colour, whatever the state; nothing else changes |
| `TextInput.CustomTextInputStyle.SheetActive` | src/styles/text_input.rs:170-172 | returns the appearance stored for `Active` |
| `TextInput.CustomTextInputStyle.SheetFocused` | src/styles/text_input.rs:174-176 | returns the appearance stored for `Focused` |
| `TextInput.CustomTextInputStyle.SheetPlaceholderColor` | src/styles/text_input.rs:178-180 | returns the colour that, set again with `placeholder_color`, leaves the style as it is |
| `TextInput.CustomTextInputStyle.SheetValueColor` | src/styles/text_input.rs:182-184 | returns the colour that, set again with `value_color`, leaves the style as it is |
| `TextInput.CustomTextInputStyle.SheetDisabledColor` | src/styles/text_input.rs:186-188 | returns the colour that, set again with `disabled_color`, leaves the style as it is |
| `TextInput.CustomTextInputStyle.SheetSelectionColor` | src/styles/text_input.rs:190-192 | returns the colour that, set again with `selection_color`, leaves the style as it is |
| `TextInput.CustomTextInputStyle.SheetHovered` | src/styles/text_input.rs:194-196 | returns the appearance stored for `Hovered` |
| `TextInput.CustomTextInputStyle.SheetDisabled` | src/styles/text_input.rs:198-200 | returns the appearance stored for `Disabled` |
| `TextInput.RecordsDetermineStyle` | src/styles/text_input.rs:4-15 | two styles with the same state, appearances and colours are equal |
| `TextInput.LastSelectorWins` | src/styles/text_input.rs:62-80 | of two selectors applied in a row, the second wins |
| `TextInput.StepState` | src/styles/text_input.rs:62-160 | a selector sets the state it names; no setter changes the state |
| `TextInput.ChainState` | src/styles/text_input.rs:62-160 | after any chain, the selected state is the one named by its last selector |
| `TextInput.OnlyBackgroundColorWritesFocused` | src/styles/text_input.rs:82-160 | a call that changes the `focused` background is a `background_color(c)` call, and it leaves `Color(c)` there; `background` never reaches it |
| `TextInput.ChainKeepsFocusedSolid` | src/styles/text_input.rs:82-160 | no chain puts a gradient into the `focused` appearance |
| `TextInput.BuiltFocusedBackgroundIsSolid` | src/styles/text_input.rs:87 | after `new()` and any chain, `focused()` has a solid colour background |
| `TextInput.FocusedBackgroundWritesActive` | src/styles/text_input.rs:87 | `background` after `focused()` changes `active`'s background and leaves `focused` as it was |
| `TextInput.FocusedBackgroundColorWritesFocused` | src/styles/text_input.rs:97 | `background_color` after `focused()` changes `focused`'s background |
| `TextInput.ColorSettersIgnoreState` | src/styles/text_input.rs:142-160 | the four colour setters have the same effect whichever state is selected |
| `Iced.RadiusFrom` | src/styles/text_input.rs:30 | `BorderRadius::from(r)` puts the same radius on all four corners |
| `Iced.NamedColorsDistinct` | src/styles/text_input.rs:29-33 | black, white and transparent are three different colours |
| `Container.CustomContainerStyle.New` | src/styles/container.rs:10-20 | no text colour, no background, zero border width, default radius and border colour |
| `Container.CustomContainerStyle.Background` | src/styles/container.rs:34-37 | sets the background; restoring it gives back the old style |
| `Container.CustomContainerStyle.BackgroundColor` | src/styles/container.rs:39-42 | sets the background to `Some(Color(c))`; nothing else changes |
| `Container.CustomContainerStyle.BorderRadius` | src/styles/container.rs:44-47 | sets the border radius; nothing else changes |
| `Container.CustomContainerStyle.BorderWidth` | src/styles/container.rs:49-52 | sets the border width; nothing else changes |
| `Container.CustomContainerStyle.BorderColor` | src/styles/container.rs:54-57 | sets the border colour; nothing else changes |
| `Container.CustomContainerStyle.TextColor` | src/styles/container.rs:59-62 | sets the optional text colour; nothing else changes |
| `Container.CustomContainerStyle.SheetAppearance` | src/styles/container.rs:72-74 | returns the record the style holds |
| `Container.BackgroundColorIsBackground` | src/styles/container.rs:34-42 | `background_color(c)` equals `background(Some(Color(c)))` |
| `Container.LastWriteWins` | src/styles/container.rs:34-62 | writing a field twice keeps only the last write, also across `background` and `background_color` |
| `Container.SettersOfDifferentFieldsCommute` | src/styles/container.rs:34-62 | setters of different fields may be applied in either order |
| `Text.CustomTextStyle.New` | src/styles/text.rs:10-16 | the colour is `Some(BLACK)` |
| `Text.CustomTextStyle.Color` | src/styles/text.rs:18-21 | the colour becomes `Some(c)` |
| `Text.CustomTextStyle.AsCustom` | src/styles/text.rs:23-25 | a fixed-colour text style holding the stored colour, or `TRANSPARENT` when there is none |
| `Text.CustomTextStyle.SheetAppearance` | src/styles/text.rs:31-33 | returns the record the style holds |
| `Wrappers.Option.UnwrapOr` | src/styles/text.rs:24 | `unwrap_or` gives the held value, or the fallback when there is none |
| `Text.LastColorWins` | src/styles/text.rs:18-21 | of two `color` calls, the last one wins |
| `Text.AsCustomOfBuilt` | src/styles/text.rs:10-24 | `new()` converts to black text, and `new().color(c)` converts to `c` |
| `Text.AsCustomTransparent` | src/styles/text.rs:23-25 | the conversion is `TRANSPARENT` exactly when the colour is absent or is itself transparent |
| `Svg.CustomSvgStyle.New` | src/styles/svg.rs:9-15 | no colour |
| `Svg.CustomSvgStyle.Color` | src/styles/svg.rs:17-20 | stores exactly the given option, including `None` |
| `Svg.CustomSvgStyle.SheetAppearance` | src/styles/svg.rs:30-32 | returns the record the style holds |
| `Svg.LastColorWins` | src/styles/svg.rs:17-20 | `color(a).color(b)` equals `color(b)` |
| `Svg.ColorIsShown` | src/styles/svg.rs:17-20 | after `color(o)` the getter shows `o`, whatever was stored before |

## Left out

- The theme-derived constructors are not modelled: `default(theme)` in the scrollable and text input builders, and `transparent` and `boxx` in the container builder. Their values come from the toolkit's own style sheets, which are not part of this model.
- The `as_custom` methods of the scrollable, text input, container and svg builders are not modelled. They only box the builder into a toolkit enum; the text builder's `as_custom`, which has logic, is modelled.
- The `_style` (theme) parameter of every `StyleSheet` getter is dropped, because no getter reads it.
- The meaning of floats, colours, radii and gradients is not modelled. The builders only store these values. An `f32` is kept as its bit pattern, and two floats are equal only when their bits are equal.
- `Color::default()` and `BorderRadius::default()` belong to the toolkit, which is not part of this model. The model takes them to be all channels zero (the same as `TRANSPARENT`) and all corners zero.
- Rendering, and how the toolkit picks which getter to call, belong to the toolkit, not this repository.
- The derived `Debug` and `Clone` implementations are left out; copying is implicit for Dafny values.
