# SliderView slide sequencer

A Dafny model of the slide sequencer inside the Android widget `SliderView`
(Kotlin). The widget shows image and video slides one at a time and
cross-fades from one to the next. It keeps three slots:

- `previousSlide`: the outgoing slide, waiting to be removed;
- `currentSlide`: the slide meant to be visible;
- `nextSlide`: a slide preloaded invisibly by `prepareSlide`.

`showSlide` rotates the slots and then replays, clears, keeps or rebuilds
the new current slide. A slide is removed from the view when a fade
animation ends or is cancelled. The `animationDuration` property vetoes
out-of-range writes.

The model has four modules:

- `Entity`: the `Media` value (type and uri, compared by value).
- `Durations`: the vetoed duration property as pure functions, and what a
  whole history of writes leaves stored.
- `Slider`: the class `Slide` for an image or video slide view. Its kind is
  fixed; its tag, alpha (0 or 1) and start count change in place. The class
  `SliderView` holds the three slots, the container (the set of child
  slides), the list of pending fades and the duration. `Decide` is the pure
  decision behind `showSlide`'s `when`; the `ShowSlide` method's
  contract is stated through it. `Valid()` is the invariant every
  operation keeps: the duration is in range, no slide sits in two slots,
  and the current and next slides are tagged children of the view.
- `Scenarios`: clients that chain the operations.

The fade animation is modelled as a pending event. `ShowSlide` records a
`Fade` in `pending`. `FireAnimationEnd` delivers one of them, with reason
`Ended` or `Cancelled`, and both reasons run the same removal.

## Behaviour as written

The model follows the code, including these points:

- The fade listener reads the field `previousSlide` when it fires. A fade
  that ends after a later `showSlide` removes the later previous slide, and
  the earlier one stays a child (`Scenarios.LateFade`).
- Removal never clears `previousSlide`. A fade ending late is not ignored:
  it removes whatever the slot holds.
- Calling `showSlide(m)` twice in a row does not replay the current slide.
  The second call rotates the empty next slot in and builds a new slide for
  `m` (`Scenarios.ShowTwice`).
- The promote path starts no fade. The slide it moves to previous stays a
  child until a fade fires while it is still the previous slide. If a later
  `showSlide` moves it out of the previous slot first, it is never removed
  (`Scenarios.OrphanedSlide`).
- `prepareSlide(null)` and the clear branch drop a slot's reference but
  leave the slide a child.
- A rotated-in slide that binds to a different media of its own kind is
  re-tagged and stays current at its alpha, which is 0 for a prepared slide.
  A rotated-in slide that fails to bind is still re-tagged before it is
  dropped.

## Model

| member | source | states |
|---|---|---|
| `Slider.Binds` | app/src/main/java/ly/slide/promo/testapp/presentation/widget/SliderView.kt:99-108 | a slide takes a media iff the media is present and the slide's variant is the one the factory builds for the media's type |
| `Slider.Decide` | app/src/main/java/ly/slide/promo/testapp/presentation/widget/SliderView.kt:48-69 | replay iff the rotated-in tag equals the media (empty slot = null tag); with a null media and a tagged or empty slot: replay iff the slot is empty, clear iff it holds a slide; keep (rebind) iff the media is present, the tag differs and the kinds match; rebuild iff the media is present, the tag differs and the slot is empty or of the other kind |
| `Slider.KindFor` | app/src/main/java/ly/slide/promo/testapp/presentation/widget/SliderView.kt:82-96 | the variant the factory builds for a media type is the one that renders that type |
| `Slider.Slide.constructor` | app/src/main/java/ly/slide/promo/testapp/presentation/widget/SliderView.kt:84-95 | a new slide view of the chosen variant is untagged, opaque and never started |
| `Slider.Slide.BindMedia` | app/src/main/java/ly/slide/promo/testapp/presentation/widget/SliderView.kt:99-108 | the tag becomes the argument whatever the outcome; the result is `Binds(kind, media)` |
| `Slider.Slide.Start` | app/src/main/java/ly/slide/promo/testapp/presentation/widget/SliderView.kt:50 | only the start count changes, by one |
| `Slider.SliderView.constructor` | app/src/main/java/ly/slide/promo/testapp/presentation/widget/SliderView.kt:30-42 | duration is the default, all three slots empty, no children, no pending fade; the invariant holds |
| `Slider.SliderView.SetAnimationDuration` | app/src/main/java/ly/slide/promo/testapp/presentation/widget/SliderView.kt:30-38 | the stored duration becomes the value iff it is in [min, max], else it is unchanged; the invariant (duration in range) is kept |
| `Slider.SliderView.RestoreInstanceState` | app/src/main/java/ly/slide/promo/testapp/presentation/widget/SliderView.kt:125-130 | restoring assigns the saved value through the same veto |
| `Slider.SliderView.ShowSlide` | app/src/main/java/ly/slide/promo/testapp/presentation/widget/SliderView.kt:44-71 | previous becomes the old current and next is empty for every media. Replay: no slide is built, children are unchanged, and a present rotated-in slide is started once and gets a pending fade to alpha 1. Clear: current is empty and children are unchanged. Rebind: the rotated-in slide is re-tagged and stays current with its alpha and children unchanged. Promote: exactly one new slide of the media's kind, tagged with it, at alpha 1, started iff video, is added and made current, and the old current stays a child. The invariant is kept |
| `Slider.SliderView.PrepareSlide` | app/src/main/java/ly/slide/promo/testapp/presentation/widget/SliderView.kt:73-80 | with a media: exactly one new slide of its kind, tagged with it, at alpha 0 and never started, is added and becomes next; previous, current and the other children are untouched, and an old next stays a child. With null: next is empty and children are unchanged |
| `Slider.SliderView.FireAnimationEnd` | app/src/main/java/ly/slide/promo/testapp/presentation/widget/SliderView.kt:54-59 | end and cancellation alike remove the slide the previous slot holds at delivery time (nothing if it is empty); the delivered fade leaves the pending list; the invariant is kept |
| `Slider.SliderView.CreateSlide` | app/src/main/java/ly/slide/promo/testapp/presentation/widget/SliderView.kt:82-97 | a new slide of the variant that renders the type, untagged, opaque, never started |
| `Slider.SliderView.RemoveSlide` | app/src/main/java/ly/slide/promo/testapp/presentation/widget/SliderView.kt:110-112 | the container loses the view if there is one; removing a non-child changes nothing |
| `Slider.SliderView.AddSlide` | app/src/main/java/ly/slide/promo/testapp/presentation/widget/SliderView.kt:114-116 | a present view, which must not already be a child, becomes a child at alpha 1 if visible and 0 otherwise; nothing happens for null |
| `Durations.Accepts` | app/src/main/java/ly/slide/promo/testapp/presentation/widget/SliderView.kt:32-37 | the veto lets a write through only when it is in range and differs from the stored value; an in-range write it refuses equals the stored value |
| `Durations.Assigned` | app/src/main/java/ly/slide/promo/testapp/presentation/widget/SliderView.kt:30-38 | a write takes effect iff the new value is in range; an in-range value stays in range |
| `Durations.AfterWrites` | app/src/main/java/ly/slide/promo/testapp/presentation/widget/SliderView.kt:30-38 | after any history of writes from an in-range start, the value is in range, and it is the start or one of the writes |
| `Durations.AfterWritesIsLastInRange` | app/src/main/java/ly/slide/promo/testapp/presentation/widget/SliderView.kt:30-38 | after any history of writes, the stored value is the last in-range write, or the start if there is none |
| `Scenarios.PrepareThenShow` | app/src/main/java/ly/slide/promo/testapp/presentation/widget/SliderView.kt:44-80 | after `prepareSlide(m); showSlide(m)`, the slide the prepare built is current, started once, with a pending fade to 1; it is the only slide added |
| `Scenarios.ShowNothing` | app/src/main/java/ly/slide/promo/testapp/presentation/widget/SliderView.kt:44-62 | `showSlide(null)` always leaves current empty and never adds or removes a child |
| `Scenarios.ShowTwice` | app/src/main/java/ly/slide/promo/testapp/presentation/widget/SliderView.kt:44-69 | a second `showSlide(m)` builds a new slide tagged `m` rather than replaying; both slides stay children |
| `Scenarios.Crossfade` | app/src/main/java/ly/slide/promo/testapp/presentation/widget/SliderView.kt:44-116 | image shown via prepare/show, then video via prepare/show: once the fade ends or is cancelled, the video slide is the only child |
| `Scenarios.LateFade` | app/src/main/java/ly/slide/promo/testapp/presentation/widget/SliderView.kt:54-59 | a fade delivered after two more shows removes the slide in the previous slot at delivery time, not the one that was previous when it started |
| `Scenarios.OrphanedSlide` | app/src/main/java/ly/slide/promo/testapp/presentation/widget/SliderView.kt:44-69 | after `prepareSlide(a); showSlide(a); showSlide(b); showSlide(c)` and the one fade, the a-slide is still a child, in no slot, with no fade pending |

## Left out

- Android view plumbing is not modelled: the `RelativeLayout` constructors, `layoutParams` and drawing. The container is the set of child slides; other children of the view are not modelled.
- Animation timing is not modelled: durations, intermediate alpha values, and the animator's own writes of alpha. A `Fade` records its target alpha (1), and the slide's alpha is left as the slider last wrote it. The order and multiplicity in which Android delivers callbacks for superseded animations are not modelled either: any pending fade may be delivered at any time, exactly once.
- Media loading and playback are not modelled: `ImageSlideView.prepare`, `VideoSlideView.prepare` and `start`, and `Slide.start` are not part of this model. Only the number of `start` calls is recorded. Both slide variants are taken to implement `Slide`, so the replay branch starts either kind.
- Instance-state persistence is not modelled: `onSaveInstanceState`, the helpers `alsoSaveState` and `restoreSavedState`, and the `super` calls. `RestoreInstanceState` takes the value read from the saved state as a parameter.
- The `UiConstants` duration constants are not part of this model. The view takes them as a `DurationLimits` value, assumed to satisfy min <= default <= max.
- The duration is a Kotlin `Long` but is modelled as an unbounded integer. In-range values are Long values, so this changes nothing the veto lets through.
