/**
 * The slide sequencer of `SliderView`: three slots (previous, current, next)
 * driven by `ShowSlide` and `PrepareSlide`, slides added to and removed from
 * the view's container, and the fade animation whose end or cancellation
 * evicts whatever slide the previous slot holds at that moment.
 *
 * Slides are objects: the container and the slots share them, and binding,
 * starting and adding a slide change it in place.
 */
module Slider {
  import opened Wrappers
  import opened Entity
  import opened Durations

  /** The two slide variants: an image-rendering view and a video-rendering view. */
  datatype SlideKind = ImageSlide | VideoSlide

  /** The media type a variant renders: an image view images, a video view videos. */
  function RenderedType(kind: SlideKind): MediaType
  {
    match kind
    case ImageSlide => IMAGE
    case VideoSlide => VIDEO
  }

  /** The variant the factory builds for a media type: the one that renders it. */
  function KindFor(t: MediaType): (kind: SlideKind)
    ensures RenderedType(kind) == t
  {
    match t
    case IMAGE => ImageSlide
    case VIDEO => VideoSlide
  }

  /**
   * The kind test of binding: a slide takes a media only when the media is
   * present and of the type its variant renders, which is exactly the type
   * the factory builds that variant for.
   */
  function Binds(kind: SlideKind, media: Option<Media>): (ok: bool)
    ensures ok <==> media.Some? && kind == KindFor(media.value.mediaType)
  {
    match media
    case None => false
    case Some(m) =>
      (m.mediaType == IMAGE && kind == ImageSlide) || (m.mediaType == VIDEO && kind == VideoSlide)
  }

  /** A view's alpha as the slider writes it: fully transparent or fully opaque. */
  type Alpha = a: int | a == 0 || a == 1

  /** How a fade animation finished; the slider treats both the same. */
  datatype AnimationEnd = Ended | Cancelled

  /** A fade animation that was started and whose end has not been delivered yet. */
  datatype Fade = Fade(target: Slide, alpha: Alpha)

  /** What `ShowSlide` sees in the slot it rotates into current: nothing, or a slide's kind and tag. */
  datatype Rotated = Empty | Holding(kind: SlideKind, tag: Option<Media>)

  /** The branch of `ShowSlide` that runs. */
  datatype Branch = Replay | Clear | Rebind | Promote

  /** `currentSlide?.tag`: the tag of the rotated-in slide, or nothing when the slot is empty. */
  function TagOf(rotated: Rotated): Option<Media>
  {
    if rotated.Empty? then None else rotated.tag
  }

  /**
   * Which branch `ShowSlide` takes, from the rotated-in slot and the
   * requested media: a tag equal to the media replays (an empty slot counts
   * as the tag `null`), an absent media clears, a slide that binds to the
   * media is kept, and anything else is rebuilt by the factory.
   */
  function Decide(rotated: Rotated, media: Option<Media>): (b: Branch)
    ensures b == Replay <==> TagOf(rotated) == media
    ensures media == None && (rotated.Holding? ==> rotated.tag.Some?) ==>
              (b == Replay <==> rotated.Empty?) && (b == Clear <==> rotated.Holding?)
    ensures b == Rebind <==>
              media.Some? && rotated.Holding? && rotated.tag != media
              && rotated.kind == KindFor(media.value.mediaType)
    ensures b == Promote <==>
              media.Some? && TagOf(rotated) != media
              && (rotated.Empty? || rotated.kind != KindFor(media.value.mediaType))
  {
    if TagOf(rotated) == media then Replay
    else if media == None then Clear
    else if rotated.Holding? && Binds(rotated.kind, media) then Rebind
    else Promote
  }

  /** An image or video slide view. */
  class Slide {
    const kind: SlideKind
    var tag: Option<Media>
    var alpha: Alpha
    var starts: nat

    /** A new view: untagged, opaque, never started. */
    constructor (kind: SlideKind)
      ensures this.kind == kind && tag == None && alpha == 1 && starts == 0
    {
      this.kind := kind;
      tag := None;
      alpha := 1;
      starts := 0;
    }

    /** Starts (or resumes) the slide; only the number of calls is recorded. */
    method Start()
      modifies this`starts
      ensures starts == old(starts) + 1
    {
      starts := starts + 1;
    }

    /**
     * Tags the slide with `media` whatever the outcome, and reports whether
     * the slide's variant can render it.
     */
    method BindMedia(media: Option<Media>) returns (ok: bool)
      modifies this`tag
      ensures tag == media
      ensures ok == Binds(kind, media)
    {
      tag := media;
      if media == None {
        ok := false;
      } else if media.value.mediaType == IMAGE && kind == ImageSlide {
        ok := true;
      } else if media.value.mediaType == VIDEO && kind == VideoSlide {
        ok := true;
      } else {
        ok := false;
      }
    }
  }

  class SliderView {
    /** The host's duration bounds and default. */
    const limits: DurationLimits
    var animationDuration: int
    var previousSlide: Slide?
    var currentSlide: Slide?
    var nextSlide: Slide?
    /** The slides that are children of the view. */
    var container: set<Slide>
    /** Fade animations started by `ShowSlide` whose end or cancellation is still to come. */
    var pending: seq<Fade>

    /**
     * The sequencer's invariant: the duration is in range, no slide sits in
     * two slots, and the current and next slides are tagged children of the view.
     */
    ghost predicate Valid()
      reads this, currentSlide, nextSlide
    {
      && WellFormed(limits)
      && InRange(limits, animationDuration)
      && (currentSlide != null ==>
            currentSlide in container && currentSlide != previousSlide && currentSlide.tag.Some?)
      && (nextSlide != null ==>
            nextSlide in container && nextSlide != previousSlide && nextSlide != currentSlide
            && nextSlide.tag.Some?)
    }

    /** What the next slot shows `ShowSlide` once it is rotated into current. */
    ghost function RotatedView(): Rotated
      reads this, nextSlide
    {
      if nextSlide == null then Empty else Holding(nextSlide.kind, nextSlide.tag)
    }

    constructor (limits: DurationLimits)
      requires WellFormed(limits)
      ensures Valid()
      ensures this.limits == limits && animationDuration == limits.default
      ensures previousSlide == null && currentSlide == null && nextSlide == null
      ensures container == {} && pending == []
    {
      this.limits := limits;
      animationDuration := limits.default;
      previousSlide, currentSlide, nextSlide := null, null, null;
      container := {};
      pending := [];
    }

    /** Assigns the duration through the veto: only an in-range value is stored. */
    method SetAnimationDuration(value: int)
      requires Valid()
      modifies this`animationDuration
      ensures Valid()
      ensures animationDuration == (if InRange(limits, value) then value else old(animationDuration))
    {
      if Accepts(limits, animationDuration, value) {
        animationDuration := value;
      }
    }

    /** Restores the saved duration through the same vetoed assignment. */
    method RestoreInstanceState(savedDuration: int)
      requires Valid()
      modifies this`animationDuration
      ensures Valid()
      ensures animationDuration == Assigned(limits, old(animationDuration), savedDuration)
    {
      SetAnimationDuration(savedDuration);
    }

    /**
     * Rotates the slots (previous <- current <- next <- empty) and then
     * replays, clears, keeps or rebuilds the new current slide.
     */
    method ShowSlide(media: Option<Media>)
      requires Valid()
      modifies this`previousSlide, this`currentSlide, this`nextSlide, this`container, this`pending
      modifies nextSlide
      ensures Valid()
      ensures previousSlide == old(currentSlide) && nextSlide == null
      // Replay: the rotated-in slide (if any) is started and fades in; nothing is created or removed now.
      ensures var r := old(nextSlide);
        Decide(old(RotatedView()), media) == Replay ==>
          && currentSlide == r && container == old(container)
          && (r == null ==> pending == old(pending))
          && (r != null ==>
                && pending == old(pending) + [Fade(r, 1)]
                && r.starts == old(r.starts) + 1 && r.tag == old(r.tag) && r.alpha == old(r.alpha))
      // Clear: the rotated-in slide is dropped from current but stays a child, untouched.
      ensures var r := old(nextSlide);
        Decide(old(RotatedView()), media) == Clear ==>
          && currentSlide == null && container == old(container) && pending == old(pending)
          && (r != null ==> r.tag == old(r.tag) && r.alpha == old(r.alpha) && r.starts == old(r.starts))
      // Rebind: the rotated-in slide is re-tagged and stays current at its alpha.
      ensures var r := old(nextSlide);
        Decide(old(RotatedView()), media) == Rebind ==>
          && r != null && currentSlide == r
          && r.tag == media && r.alpha == old(r.alpha) && r.starts == old(r.starts)
          && container == old(container) && pending == old(pending)
      // Promote: one new slide of the media's kind becomes current, opaque, started only if video.
      ensures var r := old(nextSlide);
        Decide(old(RotatedView()), media) == Promote ==>
          && media.Some? && currentSlide != null && fresh(currentSlide)
          && currentSlide !in old(container)
          && currentSlide.kind == KindFor(media.value.mediaType)
          && currentSlide.tag == media && currentSlide.alpha == 1
          && currentSlide.starts == (if currentSlide.kind == VideoSlide then 1 else 0)
          && container == old(container) + {currentSlide} && pending == old(pending)
          && (r != null ==> r.tag == media && r.alpha == old(r.alpha) && r.starts == old(r.starts))
    {
      previousSlide := currentSlide;
      currentSlide := nextSlide;
      nextSlide := null;
      var current := currentSlide;
      var currentTag := if current == null then None else current.tag;
      if currentTag == media {
        if current != null {
          current.Start();
          pending := pending + [Fade(current, 1)];
        }
      } else if media == None {
        currentSlide := null;
      } else {
        var bound := false;
        if current != null {
          bound := current.BindMedia(media);
        }
        if !bound {
          var slide := CreateSlide(media.value.mediaType);
          var _ := slide.BindMedia(media);
          if slide.kind == VideoSlide {
            slide.Start();
          }
          AddSlide(slide, true);
          currentSlide := slide;
        }
      }
    }

    /**
     * Preloads `media` into the next slot as a new invisible child, or
     * empties the next slot (leaving its old slide a child) when there is no media.
     */
    method PrepareSlide(media: Option<Media>)
      requires Valid()
      modifies this`nextSlide, this`container
      ensures Valid()
      ensures previousSlide == old(previousSlide) && currentSlide == old(currentSlide)
      ensures media == None ==> nextSlide == null && container == old(container)
      ensures media.Some? ==>
        && nextSlide != null && fresh(nextSlide) && nextSlide !in old(container)
        && nextSlide.kind == KindFor(media.value.mediaType)
        && nextSlide.tag == media && nextSlide.alpha == 0 && nextSlide.starts == 0
        && container == old(container) + {nextSlide}
    {
      if media == None {
        nextSlide := null;
      } else {
        var slide := CreateSlide(media.value.mediaType);
        var _ := slide.BindMedia(media);
        AddSlide(slide, false);
        nextSlide := slide;
      }
    }

    /**
     * Delivers the end or the cancellation of the pending fade `i`: either
     * way the slide the previous slot holds now (not when the fade began)
     * leaves the container; the previous slot keeps its reference.
     */
    method FireAnimationEnd(i: nat, reason: AnimationEnd)
      requires Valid()
      requires i < |pending|
      modifies this`container, this`pending
      ensures Valid()
      ensures pending == old(pending[..i] + pending[i + 1..])
      ensures container == (if previousSlide == null then old(container) else old(container) - {previousSlide})
    {
      pending := pending[..i] + pending[i + 1..];
      match reason
      case Ended => RemoveSlide(previousSlide);
      case Cancelled => RemoveSlide(previousSlide);
    }

    /** A new unbound, opaque slide of the variant that renders `t`. */
    method CreateSlide(t: MediaType) returns (slide: Slide)
      ensures fresh(slide)
      ensures slide.kind == KindFor(t) && slide.tag == None && slide.alpha == 1 && slide.starts == 0
    {
      match t
      case IMAGE => slide := new Slide(ImageSlide);
      case VIDEO => slide := new Slide(VideoSlide);
    }

    /** Removes `view` from the container when there is one; removing a non-child changes nothing. */
    method RemoveSlide(view: Slide?)
      modifies this`container
      ensures container == (if view == null then old(container) else old(container) - {view})
    {
      if view != null {
        container := container - {view};
      }
    }

    /**
     * Sets `view` opaque or transparent and makes it a child; the view must
     * not already be one (the slider only adds slides fresh from the factory).
     */
    method AddSlide(view: Slide?, visible: bool)
      requires view == null || view !in container
      modifies this`container, view
      ensures view == null ==> container == old(container)
      ensures view != null ==>
        && container == old(container) + {view}
        && view.alpha == (if visible then 1 else 0)
        && view.tag == old(view.tag) && view.starts == old(view.starts)
    {
      if view != null {
        view.alpha := if visible then 1 else 0;
        container := container + {view};
      }
    }
  }
}
