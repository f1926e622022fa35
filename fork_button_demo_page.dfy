/**
 * The fork button demo: a counter starting at 42 that the example project's
 * fork button increases by one per taken click, with no guard of its own.
 */
module ForkButtonDemoPage {
  import opened ForkButton

  const InitialCount := 42

  class Demo {
    var forkCount: int

    constructor ()
      ensures forkCount == InitialCount
    {
      forkCount := InitialCount;
    }

    /** `handleFork`: one more fork, every time. */
    method HandleFork()
      modifies this
      ensures forkCount == old(forkCount) + 1
    {
      forkCount := forkCount + 1;
    }

    /** A click on the example's (enabled) fork button: counted unless an animation is running. */
    method PressForkButton(button: ForkButtonState)
      requires button.Valid()
      modifies this, button
      ensures forkCount == old(forkCount) + (if old(button.isAnimating) then 0 else 1)
      ensures forkCount >= old(forkCount)
      ensures button.isAnimating && button.Valid()
    {
      var called := button.HandleClick(false, true);
      if called {
        HandleFork();
      }
    }
  }

  /** A click, a second click in the same window, the timer, and a third click: two forks. */
  method ThreeClicks(d: Demo, button: ForkButtonState)
    requires button.Valid() && !button.isAnimating
    modifies d, button
    ensures d.forkCount == old(d.forkCount) + 2
  {
    d.PressForkButton(button);
    d.PressForkButton(button);
    button.TimerFired();
    d.PressForkButton(button);
  }
}
