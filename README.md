# hacker-ui form leaves and theme, modelled in Dafny

This project models the deterministic layer of the hacker-ui component
library that sits between a component's props and its CSS:

- the default theme's numbers: the `space`, `gap` and `block` length scales,
  the `durations`, `zIndex` and breakpoint tables, and the media-query
  predicates built by `breakpoints.up`, `down` and `between`;
- how the form leaves Label, TextArea and Radio resolve their effective
  state (`id`, `focused`, `hasError`, `disabled`, `checked`, `name`) from their
  own props, the form-control context and, for Radio, the radio-group
  context;
- which style rules (by rule name) each leaf applies from the resolved
  state and its variant or size, and which props it consumes and which it
  forwards to the element it renders;
- the focus, blur and change handlers, which update the shared
  form-control context's `focused` field and hand change events to the radio
  group.

Modules, one per source file, plus three shared ones:

| file | module | models |
|---|---|---|
| `default_theme.dfy` | `Theme` | `src/defaultTheme.ts` |
| `label.dfy` | `Label` | `src/Label.tsx` |
| `text_area.dfy` | `TextArea` | `src/TextArea.tsx` |
| `radio.dfy` | `Radio` | `src/Radio.tsx` |
| `form_control.dfy` | `FormControl` | the form-control context the leaves read and the two precedence rules they use |
| `props.dfy` | `Props` | a props object as a map from prop name to a typed value, and destructuring with a rest |
| `leaves.dfy` | `Leaves` | the three leaves compared on the same inputs |
| `wrappers.dfy` | `Wrappers` | `Option`, the model of `T \| undefined` |

How the model reads the source:

- A props object is a `map<string, Value>`. An absent or `undefined` prop is a
  missing key. Every present prop has the kind its TypeScript type declares:
  the subset type `Props.Props` states this.
- The props a leaf receives are the props as `useStyles` hands them back.
  What react-style-system strips or adds (`color`, `surface`, `className`,
  `style`) is not part of this model.
- A render is a pure function `Render(props, ctx[, group])` that returns
  a `View`. Contexts are `Option`s: `None` outside a provider. A `View`
  holds the resolved flags, the rule names applied to each element and the
  forwarded props.
- The form-control context is a class, `FormControl.Context`, with a mutable
  `focused` field. `hasError`, `disabled` and `id` are fixed at construction,
  because leaves cannot change them. Radio's group context is
  `Radio.Group`. It keeps the sequence of change events it was handed.
- A caller's `onFocus`/`onBlur`/`onChange` listener is a parameter. All the
  model knows of it is whether calling it throws. The handlers call it
  first. A listener that throws therefore stops the context update.
- Lengths are exact reals in pixels. Viewport widths and breakpoint thresholds
  are whole pixels. A media query is a predicate over the viewport width.

Points of the code the model keeps as they are:

- **Precedence.** The leaves do not share one precedence rule for
  context-supplied flags:
  - Label uses `own ?? ctx ?? false` for all three flags.
  - TextArea uses that rule for `hasError` but `own || ctx` for `disabled`.
  - Radio uses `ctx || own` for both flags.
  So a context `disabled: true` cannot be overridden by an own `false` on
  TextArea or Radio, but it can on Label. `Leaves.OwnFalseDisabledSplitsLeaves` shows this.
- **Listener failure.** The handlers call the caller's listener before
  `setFocused` and do not guard the call. A throwing listener therefore
  leaves `focused` unchanged.
- **TextArea's `id`.** TextArea does not consume `id` or `component`. It sets
  `id` from the context only. An own `id` reaches the element through the
  forwarded props, which are spread after it. `component` is also forwarded
  to the rendered element. Label destructures `component` away.
- **Label's `htmlFor`.** Label does not consume `htmlFor`. A caller's own
  `htmlFor` is spread after the resolved one and replaces it
  (`Label.ElementHtmlFor`).
- **Root element.** Label picks its root with `component || 'label'`:
  an empty tag string falls back to `label`. TextArea uses
  `component ?? 'textarea'`: any given value is kept.

## Model

| member | source | states |
|---|---|---|
| `Theme.Space` | src/defaultTheme.ts:90 | `space(n)` is n units of 16px: it divides back to n, and is positive for a positive factor |
| `Theme.Gap` | src/defaultTheme.ts:91 | `gap(n)` is n units of 48px: it divides back to n, and is positive for a positive factor |
| `Theme.Block` | src/defaultTheme.ts:92 | `block(n)` is n units of 96px: it divides back to n, and is positive for a positive factor |
| `Theme.UnitValues` | src/defaultTheme.ts:90-92 | space(1) = 16px, gap(1) = 48px, block(1) = 96px, space(2) = 32px |
| `Theme.ScalesAreLinear` | src/defaultTheme.ts:90-92 | each scale is additive in its factor: f(a+b) = f(a) + f(b) |
| `Theme.ScaleRatios` | src/defaultTheme.ts:90-92 | gap(n) = 3·space(n) and block(n) = 2·gap(n) |
| `Theme.ScalesOrdered` | src/defaultTheme.ts:90-92 | for positive factors space < gap < block, and each scale grows strictly with its factor |
| `Theme.DurationMs` | src/defaultTheme.ts:80-84 | every duration lies between 100ms and 500ms |
| `Theme.DurationsOrdered` | src/defaultTheme.ts:80-84 | short 100ms < standard 250ms < long 500ms |
| `Theme.ZIndex` | src/defaultTheme.ts:93-99 | a layer's z-index is 1100 plus 100 for each layer declared before it |
| `Theme.ZIndexStrictlyIncreasing` | src/defaultTheme.ts:93-99 | a layer declared later (appBar, drawer, modal, notification, tooltip) has a strictly larger z-index, and conversely |
| `Theme.ParsePx` | src/defaultTheme.ts:100-104 | a breakpoint string has a pixel value iff it is `<digits>px` |
| `Theme.ParsePxOfPxText` | src/defaultTheme.ts:100-104 | every whole pixel count written as `<digits>px` reads back as itself |
| `Theme.PxTextOfParsePx` | src/defaultTheme.ts:100-104 | a `<digits>px` text without a leading zero is exactly the text of the pixel value it reads as |
| `Theme.BreakpointValues` | src/defaultTheme.ts:101-103 | mobile, tablet and desktop are 375, 768 and 1024 pixels |
| `Theme.BreakpointsAscending` | src/defaultTheme.ts:101-103 | mobile < tablet < desktop |
| `Theme.DesktopLargeIsNotPx` | src/defaultTheme.ts:104 | `desktopLarge` as written (`1440p`) is not a pixel length |
| `Theme.DesktopLargeIntendedAscending` | src/defaultTheme.ts:103-104 | written `1440px`, desktopLarge is 1440 pixels and above desktop |
| `Theme.Up` | src/defaultTheme.ts:106 | `up(w)` matches width p iff p ≥ w + 1 |
| `Theme.Down` | src/defaultTheme.ts:107 | `down(w)` matches width p iff p ≤ w |
| `Theme.UpDownPartition` | src/defaultTheme.ts:106-107 | every width is matched by exactly one of up(w) and down(w); w by down, w + 1 by up |
| `Theme.Between` | src/defaultTheme.ts:108-109 | `between(min, max)` as written matches p iff max − 1 ≤ p ≤ min |
| `Theme.BetweenNonEmptyIff` | src/defaultTheme.ts:108-109 | as written, between matches some width iff max − 1 ≤ min |
| `Theme.BetweenMobileTabletIsEmpty` | src/defaultTheme.ts:108-109 | between(375, 768) matches no width |
| `Theme.BetweenBand` | src/defaultTheme.ts:106-109 | the corrected band matches p iff min < p ≤ max |
| `Theme.BandTiles` | src/defaultTheme.ts:106-109 | for a ≤ b, down(a), the band (a, b] and up(b) cover every width and no two overlap |
| `Props.Rest` | src/Label.tsx:41-49 | a `...rest` keeps exactly the props not destructured, with their values |
| `FormControl.Coalesce` | src/Label.tsx:55-57 | `own ?? inherited ?? false`: an own value wins, even `false`; then the inherited one; then false |
| `FormControl.AnyTrue` | src/Radio.tsx:164-167 | `Boolean(inherited) \|\| Boolean(own)` is true iff either source is given as true |
| `FormControl.RulesDisagreeOnlyOnOwnFalse` | src/TextArea.tsx:114-116 | the two precedence rules differ exactly when an own false meets an inherited true |
| `FormControl.Notify` | src/TextArea.tsx:119-121 | an absent listener is skipped; a present one ends the handler early exactly when it throws |
| `FormControl.Step` | src/TextArea.tsx:118-135 | a focus report leaves `focused` true and a blur report leaves it false, whatever it was |
| `FormControl.Run` | src/TextArea.tsx:118-135 | over a run of reports, `focused` turns on only through a focus and off only through a blur |
| `FormControl.LastEventWins` | src/TextArea.tsx:118-135 | after a non-empty run of focus and blur reports, `focused` is true iff the last one was a focus |
| `FormControl.RunConcat` | src/TextArea.tsx:118-135 | applying two runs of reports in turn equals applying them together |
| `FormControl.Context.SetFocused` | src/TextArea.tsx:124 | `setFocused(v)` sets `focused` to v and leaves id, hasError and disabled as they were |
| `Label.RootElement` | src/Label.tsx:50 | the root is `component` when it is given and truthy, else `label` |
| `Label.StateRules` | src/Label.tsx:61-65 | the focused, hasError and disabled rules are each applied iff their flag is on |
| `Label.Render` | src/Label.tsx:41-68 | each flag resolves own ?? context ?? false; htmlFor is own id ?? context id; rules are root plus one per flag that is on; the consumed props are exactly the ones not forwarded |
| `Label.ElementHtmlFor` | src/Label.tsx:41-68 | the element's `htmlFor` is a caller's own `htmlFor` when given, since the rest is spread after it; else own id ?? context id |
| `Label.NoProviderNoState` | src/Label.tsx:55-65 | with no provider and no state props all flags are off and only `root` applies |
| `Label.OwnFalseOverridesContext` | src/Label.tsx:55-57 | own false on all three flags against a context with all three true leaves only `root` |
| `Label.ContextErrorApplies` | src/Label.tsx:56 | with no own hasError, a context error applies the hasError rule |
| `Label.RulesIndependent` | src/Label.tsx:61-65 | setting hasError changes only the hasError rule |
| `Label.ConsumedNeverForwarded` | src/Label.tsx:44-49 | component, id, focused, hasError and disabled never reach the element |
| `TextArea.VariantRules` | src/TextArea.tsx:142-147 | outlined iff variant outlined, filled iff filled, each error rule iff its variant and hasError |
| `TextArea.Render` | src/TextArea.tsx:99-150 | variant defaults to outlined; hasError is own ?? context ?? false; disabled is own \|\| context; id is the context's; the class set is well formed; root is component ?? textarea; exactly the consumed props are not forwarded |
| `TextArea.ElementId` | src/TextArea.tsx:113-150 | the element's id is an own id when given, else the context's |
| `TextArea.ExactlyOneVariantRule` | src/TextArea.tsx:142-147 | exactly one of outlined and filled is applied, and an error rule iff hasError |
| `TextArea.ContextDisabledWins` | src/TextArea.tsx:115-116 | a context disabled cannot be turned off by an own false; with neither source the field is enabled |
| `TextArea.OwnHasErrorWins` | src/TextArea.tsx:114 | an own hasError, when given, decides the flag |
| `TextArea.FocusedPropIgnored` | src/TextArea.tsx:103 | the `focused` prop is consumed and changes nothing in the render |
| `TextArea.HandleFocus` | src/TextArea.tsx:118-126 | calls onFocus; unless it throws, a present context's focused becomes true; nothing else changes |
| `TextArea.HandleBlur` | src/TextArea.tsx:127-135 | calls onBlur; unless it throws, a present context's focused becomes false; nothing else changes |
| `Radio.InputClasses` | src/Radio.tsx:217-221 | the input carries `radio`, the radio rule and exactly the size rule of its size |
| `Radio.FacadeClasses` | src/Radio.tsx:230-234 | the facade carries `facade`, the facade rule and exactly the size rule of its size |
| `Radio.RootClasses` | src/Radio.tsx:206-208 | the root carries the root rule and the hasError rule iff hasError, nothing else |
| `Radio.Checked` | src/Radio.tsx:169-172 | own checked when given; else inside a group whether the group's value equals the radio's; else undefined |
| `Radio.Render` | src/Radio.tsx:143-236 | id is own ?? context; hasError and disabled are context \|\| own; checked as above; name is own ?? group name; size defaults to standard, and input and facade each get the size rule of that size; icon defaults to CircleIcon; exactly the consumed props are not spread onto the input |
| `Radio.SizeDimensions` | src/Radio.tsx:22-29 | small, standard and large are 24, 32 and 40 pixels, strictly increasing |
| `Radio.RadioSizeRule` | src/Radio.tsx:217-221 | the input's size rule is a size rule and sets the side of its size |
| `Radio.FacadeSizeRule` | src/Radio.tsx:230-234 | the facade's size rule is a size rule and sets the side of its size |
| `Radio.SizeDimension` | src/Radio.tsx:22-29 | every size's side lies between 24 and 40 pixels, and only the standard size is space(2) |
| `Radio.WrittenDimension` | src/Radio.tsx:86-123 | as written, the six size rules and the base `facade` rule set a width and height, the base rule the standard one |
| `Radio.RuleDimension` | src/Radio.tsx:86-123 | with the base `facade` rule corrected, only the six size rules set a width and height, each the written one |
| `Radio.FacadeDimensionConflict` | src/Radio.tsx:98-123 | as written, a small or large facade carries `facade` and its size rule, and the two set different sides |
| `Radio.InputAndFacadeSameDimension` | src/Radio.tsx:86-123 | corrected, every input and facade class that sets a side sets the radio's own size, and each element has one |
| `Radio.GroupValueDecidesChecked` | src/Radio.tsx:169-172 | with no own checked, in a group, checked is whether the group's value is the radio's |
| `Radio.HasErrorFromEitherSource` | src/Radio.tsx:164-165 | the error rule is off with neither source and on when either is true |
| `Radio.Group.HandleChange` | src/Radio.tsx:199 | the group receives the change event, appended after those before it |
| `Radio.HandleFocus` | src/Radio.tsx:175-183 | calls onFocus; unless it throws, a present context's focused becomes true |
| `Radio.HandleBlur` | src/Radio.tsx:184-192 | calls onBlur; unless it throws, a present context's focused becomes false |
| `Radio.HandleChange` | src/Radio.tsx:193-201 | calls onChange; unless it throws, a present group receives the event, and only then |
| `Leaves.OwnFalseDisabledSplitsLeaves` | src/Radio.tsx:166-167 | inside a disabled form control an own disabled false enables Label only; TextArea and Radio stay disabled |
| `Leaves.OwnFalseHasErrorSplitsLeaves` | src/Radio.tsx:164-165 | against a context error an own hasError false clears Label's and TextArea's error but not Radio's |
| `Leaves.NoProviderDefaults` | src/Label.tsx:55-57 | outside any provider and without state props every leaf is error-free and enabled, and Radio's checked is undefined |

## Left out

- Colour computation: `createReadablePalette`, `mix`, `transparentize` and
  `readableColor` are floating-point colour functions of react-style-system and
  polished, outside this code. Colours do not appear in the model.
- The CSS bodies of every `createStyles` template are opaque strings for an
  external styling runtime. Only the rule names are modelled, plus the widths
  Radio's size rules take from `theme.space`. The templates have
  inconsistencies the model does not represent:
  - `src/Radio.tsx:19-20` reads `theme.bland` and `theme.danger`, where the
    other files read `theme.colors.*`.
  - `src/Radio.tsx:107` and `src/Anchor.tsx:13` read `theme.duration`, where
    the theme defines `durations`.
- `Theme.Up`, `Theme.Down`, `Theme.Between`: these take the numeric pixel value,
  not the text. The decimal rendering of `${n * 16}px` and polished's `math`
  expression parser are not modelled. `Theme.ParsePxOfPxText` shows that every
  `PxText(n)` reads back as n. `Theme.PxTextOfParsePx` shows the converse for
  texts without a leading zero: `0375px` also reads as 375.
- `Theme.UpDownPartition`, `Theme.BandTiles`: these hold for whole-pixel
  widths only. A CSS viewport width can be fractional (zoom, device pixel
  ratio). A width strictly between w and w + 1, such as 375.5, matches neither
  `down(w)` nor `up(w)`.
- The durations are kept as milliseconds, not as the `'100ms'` strings.
- The typography table (`fonts`), the `colors` table and `shadows` are
  opaque CSS strings. They are not modelled.
- React machinery: `forwardRef`, refs (`inputRef`, `ref`), the `useContext`
  lookup and the order of JSX attributes beyond consumed versus forwarded
  props. The providers of the form-control and radio-group contexts are also
  out. `FormControlContext.tsx` and `RadioGroupContext.tsx` are not part of
  this model. Their fields as the leaves read them are assumed:
  - boolean `focused`, `hasError` and `disabled`, and an optional `id`;
  - an optional `name` and `value`.
- `Props`: a prop present with the value `undefined` is modelled as an absent
  prop. JSX spread of such a prop would still overwrite an earlier attribute,
  for instance TextArea's `id`; that case is not captured.
- What a caller's listener does besides possibly throwing. What the radio
  group does with a change event: the model records that it received it.
- `src/Drawer.tsx` is DOM and effect plumbing (a portal container). It is
  not part of this model.
- `src/Anchor.tsx` and `src/TableHead.tsx` are pass-through wrappers with no
  decisions. They are not part of this model.
- The documentation website, the examples and the build configuration are
  not part of this model.

## Findings

| source | as written | input that shows it | evidently intended | confidence | as-written member | corrected member |
|---|---|---|---|---|---|---|
| src/defaultTheme.ts:108-109 | `between(min, max)` emits `(max-width: min) and (min-width: max - 1px)`, so the argument roles are swapped | `between('375px', '768px')` requires 767 ≤ p ≤ 375 and matches no width | the band between the two thresholds, continuing `down(min)` and `up(max)`: min < p ≤ max | medium (the exact intended offset is a judgement), not executed | `Theme.BetweenMobileTabletIsEmpty` | `Theme.BandTiles` |
| src/Radio.tsx:98-123 | the base `facade` rule sets `width`/`height` to `space(2)` and is applied together with `facadeSmall` or `facadeLarge` | `size: 'small'`: the facade carries 32px from `facade` and 24px from `facadeSmall` | the base rule leaves the size to the size rules, as the input's `radio` rule does | low (stylesheet order usually lets the later size rule win), not executed | `Radio.FacadeDimensionConflict` | `Radio.InputAndFacadeSameDimension` |
| src/defaultTheme.ts:104 | `desktopLarge: '1440p'` has unit `p` | `'1440p'` is not a CSS pixel length | `'1440px'`, continuing the ascending table | high, not executed | `Theme.DesktopLargeIsNotPx` | `Theme.DesktopLargeIntendedAscending` |
