/**
 * The three form leaves side by side: they do not share one precedence
 * rule, so the same props inside the same form control can leave them in
 * different states.
 */
module Leaves {
  import opened Wrappers
  import opened Props
  import opened FormControl
  import Label
  import TextArea
  import Radio

  /**
   * An own `disabled: false` inside a disabled form control: Label is
   * enabled, TextArea and Radio are disabled. Without the own prop all
   * three agree.
   */
  lemma OwnFalseDisabledSplitsLeaves(s: State)
    requires s.disabled
    ensures var p: Props := map["disabled" := FlagValue(false)];
      && !Label.Render(p, Some(s)).disabled
      && TextArea.Render(p, Some(s)).disabled
      && Radio.Render(p, Some(s), None).disabled
    ensures var q: Props := map[];
      && Label.Render(q, Some(s)).disabled
      && TextArea.Render(q, Some(s)).disabled
      && Radio.Render(q, Some(s), None).disabled
  {
  }

  /** For `hasError`, Radio alone ignores an own `false` against a context `true`. */
  lemma OwnFalseHasErrorSplitsLeaves(s: State)
    requires s.hasError
    ensures var p: Props := map["hasError" := FlagValue(false)];
      && !Label.Render(p, Some(s)).hasError
      && !TextArea.Render(p, Some(s)).hasError
      && Radio.Render(p, Some(s), None).hasError
  {
  }

  /** Outside any provider and with no state props, every leaf is in its default state. */
  lemma NoProviderDefaults(p: Props)
    requires "hasError" !in p && "disabled" !in p && "focused" !in p && "checked" !in p
    ensures var l := Label.Render(p, None); !l.focused && !l.hasError && !l.disabled
    ensures var t := TextArea.Render(p, None); !t.hasError && !t.disabled
    ensures var r := Radio.Render(p, None, None); !r.hasError && !r.disabled && r.checked == None
  {
  }
}
