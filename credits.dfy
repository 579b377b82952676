/** `Credits.cs`: the closing credits, whose three lines fade in one after
    another as the credits' clock runs. */
module CreditsScreen {
  import opened Geometry

  /** The delays after which the title, the author line and the tools line
      start to fade in. */
  const TitleDelay: real := 1.0
  const AuthorDelay: real := 4.0
  const ToolsDelay: real := 6.0

  /** The opacity of a line with the given delay when the clock reads
      `fader`: zero before the delay, rising linearly over one second, then
      fully opaque. */
  function Fade(fader: real, delay: real): (r: real)
    ensures 0.0 <= r <= 1.0
    ensures fader <= delay ==> r == 0.0
    ensures delay + 1.0 <= fader ==> r == 1.0
    ensures delay <= fader <= delay + 1.0 ==> r == fader - delay
  {
    Clamp(fader - delay, 0.0, 1.0)
  }

  /** A line only grows more opaque as time passes. */
  lemma FadeGrowsWithTime(f1: real, f2: real, delay: real)
    requires f1 <= f2
    ensures Fade(f1, delay) <= Fade(f2, delay)
  {
  }

  /** A line with a longer delay is never more opaque than one with a
      shorter delay. */
  lemma FadeShrinksWithDelay(fader: real, d1: real, d2: real)
    requires d1 <= d2
    ensures Fade(fader, d2) <= Fade(fader, d1)
  {
  }

  /** The title is always at least as visible as the author line, and the
      author line at least as visible as the tools line. */
  lemma LinesAppearInOrder(fader: real)
    ensures Fade(fader, TitleDelay) >= Fade(fader, AuthorDelay) >= Fade(fader, ToolsDelay)
  {
    FadeShrinksWithDelay(fader, TitleDelay, AuthorDelay);
    FadeShrinksWithDelay(fader, AuthorDelay, ToolsDelay);
  }

  /** `Credits`: an entity that only keeps time. */
  class Credits {
    var fader: real

    constructor ()
      ensures fader == 0.0
    {
      fader := 0.0;
    }

    /** `Update(dt)`: the clock runs. */
    method Update(dt: real)
      modifies this
      ensures fader == old(fader) + dt
    {
      fader := fader + dt;
    }

    /** `CalculateFade(delay)`. */
    function CalculateFade(delay: real): (r: real)
      reads this
      ensures 0.0 <= r <= 1.0
      ensures fader <= delay ==> r == 0.0
      ensures delay + 1.0 <= fader ==> r == 1.0
    {
      Fade(fader, delay)
    }

    /** `EditorHitTest`: the credits cannot be picked in the editor. */
    predicate EditorHitTest(mouse: Vec2)
      ensures !EditorHitTest(mouse)
    {
      false
    }
  }
}
