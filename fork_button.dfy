/**
 * The fork button: its prop defaults and its click guard. A click is taken
 * only when the button is enabled and no animation is running; a taken click
 * starts the animation, schedules the timer that ends it, and calls the
 * `onClick` callback once when one is given.
 */
module ForkButton {
  import opened Wrappers

  datatype Variant = Primary | Secondary | Outline | TextLink
  datatype Size = Small | Medium | Large

  /** The props as a caller passes them; `None` is an omitted prop. */
  datatype Props = Props(
    text: Option<string>, variant: Option<Variant>, size: Option<Size>,
    className: Option<string>, disabled: Option<bool>)

  /** The props after destructuring with defaults. */
  datatype Settings = Settings(text: string, variant: Variant, size: Size, className: string, disabled: bool)

  /** Omitted props take the defaults `'Fork'`, primary, medium, `''` and enabled; given ones are kept. */
  function Resolve(p: Props): (s: Settings)
    ensures p.text.None? ==> s.text == "Fork"
    ensures p.variant.None? ==> s.variant == Primary
    ensures p.size.None? ==> s.size == Medium
    ensures p.className.None? ==> s.className == ""
    ensures p.disabled.None? ==> !s.disabled
    ensures p.text.Some? ==> s.text == p.text.value
    ensures p.variant.Some? ==> s.variant == p.variant.value
    ensures p.size.Some? ==> s.size == p.size.value
    ensures p.className.Some? ==> s.className == p.className.value
    ensures p.disabled.Some? ==> s.disabled == p.disabled.value
  {
    Settings(p.text.GetOr("Fork"), p.variant.GetOr(Primary), p.size.GetOr(Medium),
      p.className.GetOr(""), p.disabled.GetOr(false))
  }

  /** A button with no props at all. */
  lemma BareButton()
    ensures Resolve(Props(None, None, None, None, None)) == Settings("Fork", Primary, Medium, "", false)
  {
  }

  class ForkButtonState {
    var isAnimating: bool
    /** Whether the 800 ms timer that clears `isAnimating` is scheduled and has not fired. */
    var timerPending: bool

    /** Exactly one timer is pending while the animation runs, none otherwise. */
    ghost predicate Valid()
      reads this
    {
      timerPending == isAnimating
    }

    constructor ()
      ensures !isAnimating && !timerPending && Valid()
    {
      isAnimating := false;
      timerPending := false;
    }

    /**
     * `handleClick` with the button's `disabled` setting and whether an
     * `onClick` was given; `called` says whether the callback ran.
     */
    method HandleClick(disabled: bool, hasOnClick: bool) returns (called: bool)
      requires Valid()
      modifies this
      ensures called <==> !disabled && !old(isAnimating) && hasOnClick
      ensures isAnimating == (old(isAnimating) || !disabled)
      ensures Valid()
    {
      if disabled || isAnimating {
        return false;
      }
      isAnimating := true;
      timerPending := true;
      called := hasOnClick;
    }

    /** The scheduled timer fires: the only way the animation ends. */
    method TimerFired()
      requires Valid() && timerPending
      modifies this
      ensures !isAnimating && !timerPending && Valid()
    {
      isAnimating := false;
      timerPending := false;
    }
  }

  /** Two clicks in one animation window call the callback once. */
  method DoubleClick(b: ForkButtonState) returns (first: bool, second: bool)
    requires b.Valid() && !b.isAnimating
    modifies b
    ensures first && !second
    ensures b.isAnimating && b.Valid()
  {
    first := b.HandleClick(false, true);
    second := b.HandleClick(false, true);
  }

  /** After the timer fires, the next click is taken again. */
  method ClickAfterWindow(b: ForkButtonState) returns (first: bool, second: bool)
    requires b.Valid() && !b.isAnimating
    modifies b
    ensures first && second
  {
    first := b.HandleClick(false, true);
    b.TimerFired();
    second := b.HandleClick(false, true);
  }
}
