/**
 * The project page's fork counter: 24 forks to begin with, and one fork of
 * the visitor's own at most, from either of the two main fork buttons.
 */
module ProjectPage {
  import opened Wrappers
  import opened ForkButton

  const InitialForks := 24

  class Project {
    var forks: int
    var hasFork: bool

    /** The count is the initial one plus the visitor's own fork, if made. */
    ghost predicate Valid()
      reads this
    {
      forks == InitialForks + (if hasFork then 1 else 0)
    }

    constructor ()
      ensures forks == InitialForks && !hasFork && Valid()
    {
      forks := InitialForks;
      hasFork := false;
    }

    /** `handleFork`: counts one fork and records it, only the first time. */
    method HandleFork()
      requires Valid()
      modifies this
      ensures hasFork
      ensures forks == if old(hasFork) then old(forks) else old(forks) + 1
      ensures Valid()
    {
      if !hasFork {
        forks := forks + 1;
        hasFork := true;
      }
    }

    /** The props both main buttons get: "Forked", secondary and disabled once forked. */
    function MainButtonProps(forkLabel: string): (p: Props)
      reads this
      ensures Resolve(p).disabled <==> hasFork
      ensures Resolve(p).text == if hasFork then "Forked" else forkLabel
      ensures Resolve(p).variant == if hasFork then Secondary else Primary
    {
      Props(Some(if hasFork then "Forked" else forkLabel), Some(if hasFork then Secondary else Primary),
        None, None, Some(hasFork))
    }

    /** A click on one of the two main fork buttons, each with its own animation state. */
    method PressMainButton(button: ForkButtonState)
      requires Valid() && button.Valid()
      modifies this, button
      ensures hasFork == (old(hasFork) || !old(button.isAnimating))
      ensures forks == InitialForks + (if hasFork then 1 else 0)
      ensures button.isAnimating == (old(button.isAnimating) || !old(hasFork))
      ensures Valid() && button.Valid()
    {
      var called := button.HandleClick(hasFork, true);
      if called {
        HandleFork();
      }
    }
  }

  /** Forking from the header button and then the footer button counts one fork. */
  method BothButtons(p: Project, top: ForkButtonState, bottom: ForkButtonState)
    requires p.Valid() && top.Valid() && bottom.Valid() && top != bottom
    requires !p.hasFork && !top.isAnimating && !bottom.isAnimating
    modifies p, top, bottom
    ensures p.hasFork && p.forks == InitialForks + 1
    ensures top.isAnimating && !bottom.isAnimating
  {
    p.PressMainButton(top);
    p.PressMainButton(bottom);
  }
}
