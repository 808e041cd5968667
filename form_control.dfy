/**
 * The form-control context a form wrapper shares with the leaves below it,
 * and the two precedence rules the leaves use to combine a prop of their own
 * with the value the context supplies.
 */
module FormControl {
  import opened Wrappers
  import opened Props

  /** The context as a leaf reads it while rendering. */
  datatype State = State(id: Option<string>, focused: bool, hasError: bool, disabled: bool)

  function IdOf(ctx: Option<State>): Option<string> {
    if ctx.Some? then ctx.value.id else None
  }

  function FocusedOf(ctx: Option<State>): Option<bool> {
    if ctx.Some? then Some(ctx.value.focused) else None
  }

  function HasErrorOf(ctx: Option<State>): Option<bool> {
    if ctx.Some? then Some(ctx.value.hasError) else None
  }

  function DisabledOf(ctx: Option<State>): Option<bool> {
    if ctx.Some? then Some(ctx.value.disabled) else None
  }

  /**
   * Rule `own ?? inherited ?? false`: an own prop that is given wins, even
   * when it is `false`; otherwise the inherited value; otherwise `false`.
   */
  predicate OwnThenInherited(own: Option<bool>, inherited: Option<bool>, r: bool) {
    && (own.Some? ==> r == own.value)
    && (own.None? && inherited.Some? ==> r == inherited.value)
    && (own.None? && inherited.None? ==> !r)
  }

  /** Rule `own || inherited`: true iff either source is given as `true`. */
  predicate EitherSource(own: Option<bool>, inherited: Option<bool>, r: bool) {
    r <==> (own == Some(true) || inherited == Some(true))
  }

  function Coalesce(own: Option<bool>, inherited: Option<bool>): (r: bool)
    ensures OwnThenInherited(own, inherited, r)
  {
    own.OrElse(inherited).GetOr(false)
  }

  /** `Boolean(inherited) || Boolean(own)`, and equally `own || (inherited ?? false)`. */
  function AnyTrue(own: Option<bool>, inherited: Option<bool>): (r: bool)
    ensures EitherSource(own, inherited, r)
  {
    inherited.GetOr(false) || own.GetOr(false)
  }

  /** The two rules disagree exactly when an own `false` meets an inherited `true`. */
  lemma RulesDisagreeOnlyOnOwnFalse(own: Option<bool>, inherited: Option<bool>, a: bool, b: bool)
    requires OwnThenInherited(own, inherited, a) && EitherSource(own, inherited, b)
    ensures a != b <==> (own == Some(false) && inherited == Some(true))
  {
  }

  /** Outcome of a handler: it ran to the end, or a caller's listener threw out of it. */
  datatype Outcome = Completed | Threw

  /** Calling an optional caller listener: nothing happens when it is absent. */
  function Notify(listener: Option<Listener>): (r: Outcome)
    ensures listener.None? ==> r == Completed
    ensures listener.Some? ==> (r == Threw <==> listener.value.throws)
  {
    if listener.Some? && listener.value.throws then Threw else Completed
  }

  datatype FocusEvent = Focus | Blur

  /** The machine on `focused`: a focus event sets it, a blur event clears it, whatever it was. */
  function Step(focused: bool, e: FocusEvent): (r: bool)
    ensures e == Focus ==> r
    ensures e == Blur ==> !r
  {
    e == Focus
  }

  /**
   * `focused` after the events, applied in order, that reached `setFocused`.
   * It turns on only through a focus event and off only through a blur.
   */
  function Run(focused: bool, events: seq<FocusEvent>): (r: bool)
    ensures r && !focused ==> Focus in events
    ensures !r && focused ==> Blur in events
    decreases |events|
  {
    if events == [] then focused else Run(Step(focused, events[0]), events[1..])
  }

  /** Last writer wins: only the final event decides `focused`. */
  lemma {:induction false} LastEventWins(focused: bool, events: seq<FocusEvent>)
    requires events != []
    ensures Run(focused, events) == (events[|events| - 1] == Focus)
    decreases |events|
  {
    if |events| > 1 {
      LastEventWins(Step(focused, events[0]), events[1..]);
    }
  }

  /** Running two batches of events one after the other is running them together. */
  lemma {:induction false} RunConcat(focused: bool, xs: seq<FocusEvent>, ys: seq<FocusEvent>)
    ensures Run(Run(focused, xs), ys) == Run(focused, xs + ys)
    decreases |xs|
  {
    if xs == [] {
      assert xs + ys == ys;
    } else {
      assert (xs + ys)[1..] == xs[1..] + ys;
      RunConcat(Step(focused, xs[0]), xs[1..], ys);
    }
  }

  /**
   * The context object one form wrapper owns. Leaves read it and change only
   * `focused`, through `SetFocused`.
   */
  class Context {
    const id: Option<string>
    const hasError: bool
    const disabled: bool
    var focused: bool

    constructor (id: Option<string>, focused: bool, hasError: bool, disabled: bool)
      ensures Snapshot() == State(id, focused, hasError, disabled)
    {
      this.id := id;
      this.focused := focused;
      this.hasError := hasError;
      this.disabled := disabled;
    }

    function Snapshot(): State
      reads this
    {
      State(id, focused, hasError, disabled)
    }

    /** `setFocused(value)`: the one write a leaf may make. */
    method SetFocused(value: bool)
      modifies this
      ensures Snapshot() == old(Snapshot()).(focused := value)
    {
      focused := value;
    }
  }

  /** The context a leaf sees: none outside a wrapper, else the wrapper's current state. */
  function Lookup(ctx: Context?): Option<State>
    reads ctx
  {
    if ctx == null then None else Some(ctx.Snapshot())
  }
}
