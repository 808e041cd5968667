/**
 * Label: the text label of a form control. It resolves its target id and
 * its three state flags from its own props and the form-control context,
 * picks one style rule per flag that is on, and forwards every prop it does
 * not consume to the element it renders.
 */
module Label {
  import opened Wrappers
  import opened Props
  import opened FormControl

  /** The rule names of Label's style sheet. */
  datatype Rule = Root | FocusedRule | HasErrorRule | DisabledRule

  /** The props Label destructures out of its input; the rest is forwarded. */
  const Consumed: set<string> := {"component", "id", "focused", "hasError", "disabled"}

  datatype View = View(
    root: ElementType,
    htmlFor: Option<string>,
    focused: bool,
    hasError: bool,
    disabled: bool,
    rules: set<Rule>,
    forwarded: PropBag)

  /** The element Label renders: `props.component || 'label'`. */
  function RootElement(props: Props): (e: ElementType)
    ensures ElementProp(props, "component").Some? && Truthy(ElementProp(props, "component").value)
            ==> e == ElementProp(props, "component").value
    ensures (ElementProp(props, "component").None? || !Truthy(ElementProp(props, "component").value))
            ==> e == Tag("label")
  {
    match ElementProp(props, "component")
    case Some(c) => if Truthy(c) then c else Tag("label")
    case None => Tag("label")
  }

  /** The rules applied to the root besides `root` itself: one per flag that is on. */
  function StateRules(focused: bool, hasError: bool, disabled: bool): (rules: set<Rule>)
    ensures FocusedRule in rules <==> focused
    ensures HasErrorRule in rules <==> hasError
    ensures DisabledRule in rules <==> disabled
    ensures Root !in rules
  {
    (if focused then {FocusedRule} else {})
    + (if hasError then {HasErrorRule} else {})
    + (if disabled then {DisabledRule} else {})
  }

  /** One render of Label with the given props, inside the given form-control context (if any). */
  function Render(props: Props, ctx: Option<State>): (v: View)
    ensures OwnThenInherited(FlagProp(props, "focused"), FocusedOf(ctx), v.focused)
    ensures OwnThenInherited(FlagProp(props, "hasError"), HasErrorOf(ctx), v.hasError)
    ensures OwnThenInherited(FlagProp(props, "disabled"), DisabledOf(ctx), v.disabled)
    ensures TextProp(props, "id").Some? ==> v.htmlFor == TextProp(props, "id")
    ensures TextProp(props, "id").None? ==> v.htmlFor == IdOf(ctx)
    ensures v.rules == {Root} + StateRules(v.focused, v.hasError, v.disabled)
    ensures v.root == RootElement(props)
    ensures v.forwarded.Keys == props.Keys - Consumed
    ensures forall key :: key in v.forwarded ==> v.forwarded[key] == props[key]
  {
    var focused := Coalesce(FlagProp(props, "focused"), FocusedOf(ctx));
    var hasError := Coalesce(FlagProp(props, "hasError"), HasErrorOf(ctx));
    var disabled := Coalesce(FlagProp(props, "disabled"), DisabledOf(ctx));
    View(
      RootElement(props),
      TextProp(props, "id").OrElse(IdOf(ctx)),
      focused, hasError, disabled,
      {Root} + StateRules(focused, hasError, disabled),
      Rest(props, Consumed))
  }

  /** The `htmlFor` the element ends up with: the one Label resolves, or a caller's own, spread after it. */
  datatype HtmlFor = Resolved(id: Option<string>) | Overridden(value: Value)

  /**
   * `htmlFor` is not consumed, and the forwarded props are spread after the
   * resolved `htmlFor={id}`: a caller's own `htmlFor` replaces it.
   */
  function ElementHtmlFor(props: Props, ctx: Option<State>): (h: HtmlFor)
    ensures "htmlFor" in props ==> h == Overridden(props["htmlFor"])
    ensures "htmlFor" !in props && TextProp(props, "id").Some? ==> h == Resolved(TextProp(props, "id"))
    ensures "htmlFor" !in props && TextProp(props, "id").None? ==> h == Resolved(IdOf(ctx))
  {
    var v := Render(props, ctx);
    if "htmlFor" in v.forwarded then Overridden(v.forwarded["htmlFor"]) else Resolved(v.htmlFor)
  }

  /** No provider and no state props: every flag is off and only `root` applies. */
  lemma NoProviderNoState(props: Props)
    requires "focused" !in props && "hasError" !in props && "disabled" !in props
    ensures var v := Render(props, None); !v.focused && !v.hasError && !v.disabled && v.rules == {Root}
  {
  }

  /** An explicit own `false` overrides a context `true`, for each of the three flags. */
  lemma OwnFalseOverridesContext(props: Props, s: State)
    requires props == map["focused" := FlagValue(false), "hasError" := FlagValue(false), "disabled" := FlagValue(false)]
    requires s.focused && s.hasError && s.disabled
    ensures Render(props, Some(s)).rules == {Root}
  {
  }

  /** A context flag reaches the label when the label says nothing of its own. */
  lemma ContextErrorApplies(props: Props, s: State)
    requires "hasError" !in props && s.hasError
    ensures HasErrorRule in Render(props, Some(s)).rules
  {
  }

  /**
   * The rules are independent: changing one state prop changes at most
   * the rule of that flag.
   */
  lemma RulesIndependent(props: Props, ctx: Option<State>, b: bool)
    ensures
      var before := Render(props, ctx).rules;
      var after := Render(props["hasError" := FlagValue(b)], ctx).rules;
      && (FocusedRule in before <==> FocusedRule in after)
      && (DisabledRule in before <==> DisabledRule in after)
      && (HasErrorRule in after <==> b)
  {
  }

  /** A consumed prop never reaches the rendered element. */
  lemma ConsumedNeverForwarded(props: Props, ctx: Option<State>, key: string)
    requires key in Consumed
    ensures key !in Render(props, ctx).forwarded
  {
  }
}
