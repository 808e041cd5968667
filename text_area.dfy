/**
 * TextArea: a multi-line text field. It resolves its variant (default
 * `outlined`), its error and disabled flags, and its id; it picks the
 * variant rule and the variant's error rule; and its focus and blur handlers
 * report focus to the form-control context after calling the caller's own
 * listener.
 */
module TextArea {
  import opened Wrappers
  import opened Props
  import opened FormControl

  datatype Rule = Root | OutlinedRule | OutlinedHasError | FilledRule | FilledHasError

  /**
   * The props TextArea destructures. `id` and `component` are not among
   * them: both go on to the rendered element with the rest.
   */
  const Consumed: set<string> := {"variant", "focused", "hasError", "disabled", "onFocus", "onBlur"}

  datatype View = View(
    root: ElementType,
    id: Option<string>,
    variant: Variant,
    hasError: bool,
    disabled: bool,
    rules: set<Rule>,
    forwarded: PropBag)

  /** Exactly one variant rule, and an error rule only together with its own variant's rule. */
  predicate WellFormed(rules: set<Rule>) {
    && (OutlinedRule in rules <==> FilledRule !in rules)
    && (OutlinedHasError in rules ==> OutlinedRule in rules)
    && (FilledHasError in rules ==> FilledRule in rules)
    && !(OutlinedHasError in rules && FilledHasError in rules)
  }

  /** The class map of the rendered element, for a resolved variant and error flag. */
  function VariantRules(variant: Variant, hasError: bool): (rules: set<Rule>)
    ensures OutlinedRule in rules <==> variant == Outlined
    ensures FilledRule in rules <==> variant == Filled
    ensures OutlinedHasError in rules <==> variant == Outlined && hasError
    ensures FilledHasError in rules <==> variant == Filled && hasError
    ensures Root !in rules
  {
    match variant
    case Outlined => {OutlinedRule} + (if hasError then {OutlinedHasError} else {})
    case Filled => {FilledRule} + (if hasError then {FilledHasError} else {})
  }

  /** One render of TextArea with the given props, inside the given form-control context (if any). */
  function Render(props: Props, ctx: Option<State>): (v: View)
    ensures VariantProp(props).Some? ==> v.variant == VariantProp(props).value
    ensures VariantProp(props).None? ==> v.variant == Outlined
    ensures OwnThenInherited(FlagProp(props, "hasError"), HasErrorOf(ctx), v.hasError)
    ensures EitherSource(FlagProp(props, "disabled"), DisabledOf(ctx), v.disabled)
    ensures v.id == IdOf(ctx)
    ensures v.rules == {Root} + VariantRules(v.variant, v.hasError)
    ensures WellFormed(v.rules)
    ensures ElementProp(props, "component").Some? ==> v.root == ElementProp(props, "component").value
    ensures ElementProp(props, "component").None? ==> v.root == Tag("textarea")
    ensures v.forwarded.Keys == props.Keys - Consumed
    ensures forall key :: key in v.forwarded ==> v.forwarded[key] == props[key]
  {
    var variant := VariantProp(props).GetOr(Outlined);
    var hasError := Coalesce(FlagProp(props, "hasError"), HasErrorOf(ctx));
    var disabled := AnyTrue(FlagProp(props, "disabled"), DisabledOf(ctx));
    View(
      ElementProp(props, "component").GetOr(Tag("textarea")),
      IdOf(ctx),
      variant, hasError, disabled,
      {Root} + VariantRules(variant, hasError),
      Rest(props, Consumed))
  }

  /**
   * The id the element ends up with: the forwarded props are spread after
   * `id`, so an own `id` replaces the context's.
   */
  function ElementId(props: Props, ctx: Option<State>): (id: Option<string>)
    ensures TextProp(props, "id").Some? ==> id == TextProp(props, "id")
    ensures TextProp(props, "id").None? ==> id == IdOf(ctx)
  {
    var v := Render(props, ctx);
    if "id" in v.forwarded then Some(v.forwarded["id"].text) else v.id
  }

  /** Exactly one of the two variant rules, and an error rule exactly when the flag is on. */
  lemma {:induction false} ExactlyOneVariantRule(props: Props, ctx: Option<State>)
    ensures var v := Render(props, ctx);
      && |v.rules * {OutlinedRule, FilledRule}| == 1
      && ((OutlinedHasError in v.rules || FilledHasError in v.rules) <==> v.hasError)
  {
    var v := Render(props, ctx);
    var both := v.rules * {OutlinedRule, FilledRule};
    if v.variant == Outlined {
      assert both == {OutlinedRule};
    } else {
      assert both == {FilledRule};
    }
  }

  /** A context `disabled` cannot be switched off by an own `false`; with neither source it is off. */
  lemma ContextDisabledWins(props: Props, s: State)
    ensures s.disabled ==> Render(props, Some(s)).disabled
    ensures "disabled" !in props ==> !Render(props, None).disabled
  {
  }

  /** An own `hasError`, given, wins over the context's. */
  lemma OwnHasErrorWins(props: Props, s: State)
    requires "hasError" in props
    ensures Render(props, Some(s)).hasError == props["hasError"].flag
  {
  }

  /** `focused` is consumed and has no effect: only the context's focus handlers touch focus. */
  lemma FocusedPropIgnored(props: Props, ctx: Option<State>, b: bool)
    ensures Render(props["focused" := FlagValue(b)], ctx) == Render(props, ctx)
  {
  }

  /**
   * `handleFocus`: call the caller's `onFocus`, then, inside a form control,
   * `setFocused(true)`. A listener that throws leaves the context as it was.
   */
  method HandleFocus(props: Props, ctx: Context?) returns (outcome: Outcome)
    modifies ctx
    ensures outcome == Notify(ListenerProp(props, "onFocus"))
    ensures ctx != null && outcome == Completed ==> ctx.Snapshot() == old(ctx.Snapshot()).(focused := Step(old(ctx.focused), Focus))
    ensures ctx != null && outcome == Threw ==> ctx.Snapshot() == old(ctx.Snapshot())
  {
    outcome := Notify(ListenerProp(props, "onFocus"));
    if outcome == Threw {
      return;
    }
    if ctx != null {
      ctx.SetFocused(true);
    }
  }

  /**
   * `handleBlur`: call the caller's `onBlur`, then, inside a form control,
   * `setFocused(false)`. A listener that throws leaves the context as it was.
   */
  method HandleBlur(props: Props, ctx: Context?) returns (outcome: Outcome)
    modifies ctx
    ensures outcome == Notify(ListenerProp(props, "onBlur"))
    ensures ctx != null && outcome == Completed ==> ctx.Snapshot() == old(ctx.Snapshot()).(focused := Step(old(ctx.focused), Blur))
    ensures ctx != null && outcome == Threw ==> ctx.Snapshot() == old(ctx.Snapshot())
  {
    outcome := Notify(ListenerProp(props, "onBlur"));
    if outcome == Threw {
      return;
    }
    if ctx != null {
      ctx.SetFocused(false);
    }
  }

  /**
   * Two text areas in one form control: whichever reports last decides
   * `focused`, and the next render of either sees it.
   */
  method SharedContextScenario() {
    var ctx := new Context(Some("email"), false, true, false);
    var first: Props := map["variant" := VariantValue(Filled)];
    var second: Props := map[];
    var o1 := HandleFocus(first, ctx);
    assert ctx.focused;
    var o2 := HandleFocus(second, ctx);
    var o3 := HandleBlur(first, ctx);
    assert !ctx.focused;
    var view := Render(second, Lookup(ctx));
    assert view.hasError && OutlinedHasError in view.rules;
    assert view.id == Some("email");
  }
}
