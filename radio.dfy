/**
 * Radio: a visually hidden native radio input with a drawn facade beside
 * it. It resolves id, error and disabled state from its props and the
 * form-control context, `checked` and `name` from its props and the
 * radio-group context, gives the input and the facade one size rule each,
 * and routes focus, blur and change events to the two contexts.
 */
module Radio {
  import opened Wrappers
  import opened Props
  import opened FormControl
  import Theme

  datatype Rule =
    | Root | HasErrorRule | RadioRule | RadioSmall | RadioStandard | RadioLarge
    | FacadeRule | FacadeSmall | FacadeStandard | FacadeLarge | IconRule

  /** A class of a rendered element: a fixed class name, or the realized class of a style rule. */
  datatype ClassToken = Literal(name: string) | Styled(rule: Rule)

  /** The props Radio destructures; what remains is spread onto the native input. */
  const Consumed: set<string> := {
    "id", "hasError", "disabled", "checked", "name", "value",
    "onFocus", "onBlur", "onChange", "inputRef", "icon", "size"
  }

  /** The icon drawn inside the facade when the caller names none. */
  const CircleIcon: ElementType := Component("CircleIcon")

  /** The radio-group context as a radio reads it while rendering. */
  datatype GroupState = GroupState(name: Option<string>, value: Option<string>)

  /** The change event a radio input raises; `value` is the input's value. */
  datatype ChangeEvent = ChangeEvent(value: Option<string>)

  datatype View = View(
    id: Option<string>,
    hasError: bool,
    disabled: bool,
    checked: Option<bool>,
    name: Option<string>,
    value: Option<string>,
    size: Size,
    icon: ElementType,
    rootClasses: set<ClassToken>,
    inputClasses: set<ClassToken>,
    facadeClasses: set<ClassToken>,
    iconClasses: set<ClassToken>,
    inputProps: PropBag)

  /** The input's size rule: it sets the side that belongs to `size`. */
  function RadioSizeRule(size: Size): (r: Rule)
    ensures IsRadioSizeRule(r)
    ensures RuleDimension(r) == Some(SizeDimension(size))
  {
    match size
    case Small => RadioSmall
    case Standard => RadioStandard
    case Large => RadioLarge
  }

  /** The facade's size rule: it sets the side that belongs to `size`. */
  function FacadeSizeRule(size: Size): (r: Rule)
    ensures IsFacadeSizeRule(r)
    ensures RuleDimension(r) == Some(SizeDimension(size))
  {
    match size
    case Small => FacadeSmall
    case Standard => FacadeStandard
    case Large => FacadeLarge
  }

  predicate IsRadioSizeRule(r: Rule) { r == RadioSmall || r == RadioStandard || r == RadioLarge }

  predicate IsFacadeSizeRule(r: Rule) { r == FacadeSmall || r == FacadeStandard || r == FacadeLarge }

  /** The native input's classes: `radio`, the base rule and exactly the size rule of `size`. */
  function InputClasses(size: Size): (c: set<ClassToken>)
    ensures Literal("radio") in c && Styled(RadioRule) in c
    ensures forall r :: IsRadioSizeRule(r) ==> (Styled(r) in c <==> r == RadioSizeRule(size))
  {
    {Literal("radio"), Styled(RadioRule), Styled(RadioSizeRule(size))}
  }

  /** The facade's classes: `facade`, the base rule and exactly the size rule of `size`. */
  function FacadeClasses(size: Size): (c: set<ClassToken>)
    ensures Literal("facade") in c && Styled(FacadeRule) in c
    ensures forall r :: IsFacadeSizeRule(r) ==> (Styled(r) in c <==> r == FacadeSizeRule(size))
  {
    {Literal("facade"), Styled(FacadeRule), Styled(FacadeSizeRule(size))}
  }

  /** The root's classes: the `root` rule, and the error rule iff the radio has an error. */
  function RootClasses(hasError: bool): (c: set<ClassToken>)
    ensures Styled(Root) in c
    ensures Styled(HasErrorRule) in c <==> hasError
    ensures forall r :: r != Root && r != HasErrorRule ==> Styled(r) !in c
  {
    {Styled(Root)} + (if hasError then {Styled(HasErrorRule)} else {})
  }

  /** `checked`: an own value wins; else, in a group, whether the group's value is this radio's. */
  function Checked(own: Option<bool>, value: Option<string>, group: Option<GroupState>): (r: Option<bool>)
    ensures own.Some? ==> r == own
    ensures own.None? && group.Some? ==> r == Some(group.value.value == value)
    ensures own.None? && group.None? ==> r == None
  {
    var fromGroup := if group.Some? then Some(group.value.value == value) else None;
    own.OrElse(fromGroup)
  }

  /** One render of Radio with the given props, form-control context and radio-group context. */
  function Render(props: Props, ctx: Option<State>, group: Option<GroupState>): (v: View)
    ensures TextProp(props, "id").Some? ==> v.id == TextProp(props, "id")
    ensures TextProp(props, "id").None? ==> v.id == IdOf(ctx)
    ensures EitherSource(FlagProp(props, "hasError"), HasErrorOf(ctx), v.hasError)
    ensures EitherSource(FlagProp(props, "disabled"), DisabledOf(ctx), v.disabled)
    ensures v.checked == Checked(FlagProp(props, "checked"), TextProp(props, "value"), group)
    ensures TextProp(props, "name").Some? ==> v.name == TextProp(props, "name")
    ensures TextProp(props, "name").None? && group.Some? ==> v.name == group.value.name
    ensures TextProp(props, "name").None? && group.None? ==> v.name == None
    ensures SizeProp(props).Some? ==> v.size == SizeProp(props).value
    ensures SizeProp(props).None? ==> v.size == Standard
    ensures ElementProp(props, "icon").Some? ==> v.icon == ElementProp(props, "icon").value
    ensures ElementProp(props, "icon").None? ==> v.icon == CircleIcon
    ensures v.rootClasses == RootClasses(v.hasError)
    ensures v.inputClasses == InputClasses(v.size)
    ensures v.facadeClasses == FacadeClasses(v.size)
    ensures v.iconClasses == {Literal("icon"), Styled(IconRule)}
    ensures v.inputProps.Keys == props.Keys - Consumed
    ensures forall key :: key in v.inputProps ==> v.inputProps[key] == props[key]
  {
    var size := SizeProp(props).GetOr(Standard);
    var hasError := AnyTrue(FlagProp(props, "hasError"), HasErrorOf(ctx));
    var groupName := if group.Some? then group.value.name else None;
    View(
      TextProp(props, "id").OrElse(IdOf(ctx)),
      hasError,
      AnyTrue(FlagProp(props, "disabled"), DisabledOf(ctx)),
      Checked(FlagProp(props, "checked"), TextProp(props, "value"), group),
      TextProp(props, "name").OrElse(groupName),
      TextProp(props, "value"),
      size,
      ElementProp(props, "icon").GetOr(CircleIcon),
      RootClasses(hasError),
      InputClasses(size),
      FacadeClasses(size),
      {Literal("icon"), Styled(IconRule)},
      Rest(props, Consumed))
  }

  /** The side, in pixels, that the style sheet gives each size (theme.space of 1.5, 2 and 2.5). */
  function SizeDimension(size: Size): (d: real)
    ensures 24.0 <= d <= 40.0
    ensures size == Standard <==> d == Theme.Space(2.0)
  {
    match size
    case Small => Theme.Space(1.5)
    case Standard => Theme.Space(2.0)
    case Large => Theme.Space(2.5)
  }

  /**
   * The width and height a rule sets, as the style sheet is written: the
   * size rules set their size's side, and the base `facade` rule sets the
   * standard side as well.
   */
  function WrittenDimension(r: Rule): (d: Option<real>)
    ensures d.Some? <==> IsRadioSizeRule(r) || IsFacadeSizeRule(r) || r == FacadeRule
    ensures r == FacadeRule ==> d == Some(SizeDimension(Standard))
    ensures d.Some? ==> 24.0 <= d.value <= 40.0
  {
    match r
    case RadioSmall => Some(SizeDimension(Small))
    case RadioStandard => Some(SizeDimension(Standard))
    case RadioLarge => Some(SizeDimension(Large))
    case FacadeRule => Some(SizeDimension(Standard))
    case FacadeSmall => Some(SizeDimension(Small))
    case FacadeStandard => Some(SizeDimension(Standard))
    case FacadeLarge => Some(SizeDimension(Large))
    case _ => None
  }

  /**
   * The width and height a rule sets once the base `facade` rule leaves the
   * size to the size rules: only the size rules set one.
   */
  function RuleDimension(r: Rule): (d: Option<real>)
    ensures d.Some? <==> IsRadioSizeRule(r) || IsFacadeSizeRule(r)
    ensures r != FacadeRule ==> d == WrittenDimension(r)
  {
    if r == FacadeRule then None else WrittenDimension(r)
  }

  /** Small < standard < large, at 24, 32 and 40 pixels. */
  lemma SizeDimensions()
    ensures SizeDimension(Small) == 24.0 && SizeDimension(Standard) == 32.0 && SizeDimension(Large) == 40.0
    ensures SizeDimension(Small) < SizeDimension(Standard) < SizeDimension(Large)
  {
  }

  /**
   * As written, a small or a large facade carries two rules that set its
   * width and height, `facade` and its size rule, and they disagree: which
   * one shows depends on the order of the style sheet.
   */
  lemma FacadeDimensionConflict(props: Props, ctx: Option<State>, group: Option<GroupState>)
    ensures var v := Render(props, ctx, group);
      v.size != Standard ==>
        && Styled(FacadeRule) in v.facadeClasses
        && Styled(FacadeSizeRule(v.size)) in v.facadeClasses
        && WrittenDimension(FacadeRule).Some? && WrittenDimension(FacadeSizeRule(v.size)).Some?
        && WrittenDimension(FacadeRule) != WrittenDimension(FacadeSizeRule(v.size))
  {
  }

  /**
   * With the base `facade` rule leaving the size to the size rules, every
   * class of the input and of the facade that sets a width and height sets
   * the radio's own size, and each element carries one such class.
   */
  lemma {:induction false} InputAndFacadeSameDimension(props: Props, ctx: Option<State>, group: Option<GroupState>)
    ensures var v := Render(props, ctx, group);
      && Styled(RadioSizeRule(v.size)) in v.inputClasses
      && Styled(FacadeSizeRule(v.size)) in v.facadeClasses
      && (forall r :: Styled(r) in v.inputClasses && RuleDimension(r).Some? ==> RuleDimension(r) == Some(SizeDimension(v.size)))
      && (forall f :: Styled(f) in v.facadeClasses && RuleDimension(f).Some? ==> RuleDimension(f) == Some(SizeDimension(v.size)))
  {
    var v := Render(props, ctx, group);
    assert v.inputClasses == {Literal("radio"), Styled(RadioRule), Styled(RadioSizeRule(v.size))};
    assert v.facadeClasses == {Literal("facade"), Styled(FacadeRule), Styled(FacadeSizeRule(v.size))};
  }

  /** In a group whose value is this radio's, and with no own `checked`, the radio is checked; otherwise not. */
  lemma GroupValueDecidesChecked(props: Props, group: GroupState)
    requires "checked" !in props
    ensures Render(props, None, Some(group)).checked == Some(group.value == TextProp(props, "value"))
  {
  }

  /** Neither error source: no error rule. Either one: the error rule, whatever the other says. */
  lemma HasErrorFromEitherSource(props: Props, s: State)
    ensures "hasError" !in props ==> Styled(HasErrorRule) !in Render(props, None, None).rootClasses
    ensures s.hasError ==> Styled(HasErrorRule) in Render(props, Some(s), None).rootClasses
    ensures props.Keys == {"hasError"} && props["hasError"] == FlagValue(true)
            ==> Styled(HasErrorRule) in Render(props, Some(s), None).rootClasses
  {
  }

  /**
   * The radio-group context object. Radio reads its name and value and hands
   * it every change event of its input.
   */
  class Group {
    const name: Option<string>
    const value: Option<string>
    var received: seq<ChangeEvent>

    constructor (name: Option<string>, value: Option<string>)
      ensures this.name == name && this.value == value && received == []
    {
      this.name := name;
      this.value := value;
      received := [];
    }

    function Snapshot(): GroupState {
      GroupState(name, value)
    }

    /** `handleChange(e)`: the group takes note of the event. */
    method HandleChange(e: ChangeEvent)
      modifies this
      ensures received == old(received) + [e]
    {
      received := received + [e];
    }
  }

  function LookupGroup(group: Group?): Option<GroupState> {
    if group == null then None else Some(group.Snapshot())
  }

  /**
   * `handleFocus`: call the caller's `onFocus`, then, inside a form control,
   * `setFocused(true)`. A listener that throws leaves the context as it was.
   */
  method HandleFocus(props: Props, ctx: Context?) returns (outcome: Outcome)
    modifies ctx
    ensures outcome == Notify(ListenerProp(props, "onFocus"))
    ensures ctx != null && outcome == Completed ==> ctx.Snapshot() == old(ctx.Snapshot()).(focused := Step(old(ctx.focused), Focus))
    ensures ctx != null && outcome == Threw ==> ctx.Snapshot() == old(ctx.Snapshot())
  {
    outcome := Notify(ListenerProp(props, "onFocus"));
    if outcome == Threw {
      return;
    }
    if ctx != null {
      ctx.SetFocused(true);
    }
  }

  /**
   * `handleBlur`: call the caller's `onBlur`, then, inside a form control,
   * `setFocused(false)`. A listener that throws leaves the context as it was.
   */
  method HandleBlur(props: Props, ctx: Context?) returns (outcome: Outcome)
    modifies ctx
    ensures outcome == Notify(ListenerProp(props, "onBlur"))
    ensures ctx != null && outcome == Completed ==> ctx.Snapshot() == old(ctx.Snapshot()).(focused := Step(old(ctx.focused), Blur))
    ensures ctx != null && outcome == Threw ==> ctx.Snapshot() == old(ctx.Snapshot())
  {
    outcome := Notify(ListenerProp(props, "onBlur"));
    if outcome == Threw {
      return;
    }
    if ctx != null {
      ctx.SetFocused(false);
    }
  }

  /**
   * `handleChange`: call the caller's `onChange`, then, inside a radio group,
   * hand the event to the group. Nothing else is changed.
   */
  method HandleChange(props: Props, group: Group?, e: ChangeEvent) returns (outcome: Outcome)
    modifies group
    ensures outcome == Notify(ListenerProp(props, "onChange"))
    ensures group != null ==> group.received == old(group.received) + (if outcome == Completed then [e] else [])
  {
    outcome := Notify(ListenerProp(props, "onChange"));
    if outcome == Threw {
      return;
    }
    if group != null {
      group.HandleChange(e);
    }
  }

  /** Two radios of one group: the one whose value the group holds renders checked. */
  method GroupScenario() {
    var group := new Group(Some("plan"), Some("monthly"));
    var monthly: Props := map["value" := TextValue("monthly")];
    var yearly: Props := map["value" := TextValue("yearly")];
    var a := Render(monthly, None, LookupGroup(group));
    var b := Render(yearly, None, LookupGroup(group));
    assert a.checked == Some(true);
    assert b.checked == Some(false);
    assert a.name == Some("plan");
    assert Styled(FacadeStandard) in a.facadeClasses;
    var o := HandleChange(yearly, group, ChangeEvent(Some("yearly")));
    assert group.received == [ChangeEvent(Some("yearly"))];
  }
}
