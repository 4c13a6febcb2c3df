/**
 * Clients of the sequencer: sequences of calls whose outcome follows from
 * the contracts of `SliderView` alone.
 */
module Scenarios {
  import opened Wrappers
  import opened Entity
  import opened Durations
  import opened Slider

  /**
   * `prepareSlide(m)` then `showSlide(m)`: the slide built by the prepare is
   * the one that becomes current; it is started and fades in, and no second
   * slide is built.
   */
  method PrepareThenShow(view: SliderView, m: Media)
    requires view.Valid()
    modifies view`previousSlide, view`currentSlide, view`nextSlide, view`container, view`pending
    ensures view.Valid()
    ensures view.previousSlide == old(view.currentSlide) && view.nextSlide == null
    ensures var s := view.currentSlide;
      && s != null && fresh(s) && s !in old(view.container)
      && s.kind == KindFor(m.mediaType) && s.tag == Some(m) && s.alpha == 0 && s.starts == 1
      && view.container == old(view.container) + {s}
      && view.pending == old(view.pending) + [Fade(s, 1)]
  {
    view.PrepareSlide(Some(m));
    view.ShowSlide(Some(m));
  }

  /**
   * `showSlide(null)`: the current slot ends up empty, whatever the slots
   * held, and no child is added or removed.
   */
  method ShowNothing(view: SliderView)
    requires view.Valid()
    modifies view`previousSlide, view`currentSlide, view`nextSlide, view`container, view`pending
    modifies view.nextSlide
    ensures view.Valid()
    ensures view.currentSlide == null && view.nextSlide == null
    ensures view.container == old(view.container)
  {
    view.ShowSlide(None);
  }

  /**
   * `showSlide(m)` twice in a row: the second call rotates the (empty) next
   * slot into current, so it builds a new slide for `m` instead of replaying
   * the one the first call left current; that one moves to previous and
   * stays a child.
   */
  method ShowTwice(view: SliderView, m: Media)
    requires view.Valid()
    modifies view`previousSlide, view`currentSlide, view`nextSlide, view`container, view`pending
    modifies view.nextSlide
    ensures view.Valid()
    ensures var first, second := view.previousSlide, view.currentSlide;
      && first != null && second != null && first != second && fresh(second)
      && first.tag == Some(m) && second.tag == Some(m)
      && first in view.container && second in view.container
  {
    view.ShowSlide(Some(m));
    view.ShowSlide(Some(m));
  }

  /**
   * An image slide shown through prepare and show, then a video slide the
   * same way: after the second fade ends or is cancelled, the video slide
   * is the only child.
   */
  method Crossfade(limits: DurationLimits, reason: AnimationEnd) returns (view: SliderView)
    requires WellFormed(limits)
    ensures view.Valid()
    ensures view.currentSlide != null && view.currentSlide.tag == Some(Media(VIDEO, "b"))
    ensures view.container == {view.currentSlide}
  {
    view := new SliderView(limits);
    view.PrepareSlide(Some(Media(IMAGE, "a")));
    view.ShowSlide(Some(Media(IMAGE, "a")));
    var first := view.currentSlide;
    assert view.container == {first};
    view.PrepareSlide(Some(Media(VIDEO, "b")));
    view.ShowSlide(Some(Media(VIDEO, "b")));
    assert view.previousSlide == first && view.container == {first, view.currentSlide};
    view.FireAnimationEnd(|view.pending| - 1, reason);
  }

  /**
   * A fade whose end arrives late evicts the slide in the previous slot at
   * that moment: after three prepare-and-show rounds, the first fade's end
   * removes the second slide and leaves the first one a child.
   */
  method LateFade(limits: DurationLimits, a: Media, b: Media, c: Media, reason: AnimationEnd)
    returns (view: SliderView, first: Slide, second: Slide)
    requires WellFormed(limits)
    ensures first in view.container && second !in view.container
    ensures view.previousSlide == second && view.currentSlide != null && view.currentSlide in view.container
  {
    view := new SliderView(limits);
    view.PrepareSlide(Some(a));
    view.ShowSlide(Some(a));
    first := view.currentSlide;
    view.PrepareSlide(Some(b));
    view.ShowSlide(Some(b));
    second := view.currentSlide;
    view.PrepareSlide(Some(c));
    view.ShowSlide(Some(c));
    assert |view.pending| == 3;
    view.FireAnimationEnd(0, reason);
  }

  /**
   * A slide pushed out of the previous slot before any fade fires is never
   * removed: after `prepareSlide(a); showSlide(a); showSlide(b);
   * showSlide(c)` the only fade removes the b-slide, and the a-slide stays a
   * child in no slot with no fade left pending.
   */
  method OrphanedSlide(limits: DurationLimits, a: Media, b: Media, c: Media, reason: AnimationEnd)
    returns (view: SliderView, first: Slide)
    requires WellFormed(limits)
    ensures first in view.container && view.pending == []
    ensures first != view.previousSlide && first != view.currentSlide && first != view.nextSlide
  {
    view := new SliderView(limits);
    view.PrepareSlide(Some(a));
    view.ShowSlide(Some(a));
    first := view.currentSlide;
    view.ShowSlide(Some(b));
    view.ShowSlide(Some(c));
    assert |view.pending| == 1;
    view.FireAnimationEnd(0, reason);
  }
}
