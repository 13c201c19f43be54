/** The image slider: the shown image, autoplay, and the transition flag
    that holds further moves back until the running transition ends. */
module ImageSlider {
  import opened Carousel

  /** What a key press does. */
  datatype Command = Previous | Following | PlayPause | Ignore

  /** Left arrow goes back, right arrow forward, space toggles autoplay. */
  function KeyCommand(key: string): (c: Command)
    ensures c == Previous <==> key == "ArrowLeft"
    ensures c == Following <==> key == "ArrowRight"
    ensures c == PlayPause <==> key == " "
  {
    if key == "ArrowLeft" then Previous
    else if key == "ArrowRight" then Following
    else if key == " " then PlayPause
    else Ignore
  }

  class ImageSlider {
    /** `images.length`; an empty slider shows a placeholder instead. */
    const count: nat
    var currentIndex: nat
    var isPlaying: bool
    var isTransitioning: bool
    /** The transition flag as the running autoplay interval sees it. The
        interval is set up again only when the index or autoplay changes,
        and its callback keeps the `nextSlide` of that render, so this is
        `isTransitioning` as it was at the last change of either. */
    var intervalSawTransition: bool

    ghost predicate Valid()
      reads this
    {
      count >= 1 && currentIndex < count
    }

    constructor (count: nat, autoPlay: bool)
      requires count >= 1
      ensures Valid() && this.count == count
      ensures currentIndex == 0 && isPlaying == autoPlay && !isTransitioning
      ensures !intervalSawTransition
    {
      this.count := count;
      currentIndex := 0;
      isPlaying := autoPlay;
      isTransitioning := false;
      intervalSawTransition := false;
    }

    /** `nextSlide`: ignored during a transition, otherwise one step
        forward, and a transition starts. A changed index sets the
        interval up again, which then sees the transition. */
    method Next()
      requires Valid()
      modifies this
      ensures Valid() && isPlaying == old(isPlaying)
      ensures old(isTransitioning) ==> currentIndex == old(currentIndex) && isTransitioning
      ensures !old(isTransitioning) ==> currentIndex == NextIndex(old(currentIndex), count) && isTransitioning
      ensures intervalSawTransition == if currentIndex != old(currentIndex) then true else old(intervalSawTransition)
    {
      if isTransitioning {
        return;
      }
      isTransitioning := true;
      var before := currentIndex;
      currentIndex := NextIndex(currentIndex, count);
      if currentIndex != before {
        intervalSawTransition := true;
      }
    }

    /** `prevSlide`: ignored during a transition, otherwise one step back,
        and a transition starts. */
    method Prev()
      requires Valid()
      modifies this
      ensures Valid() && isPlaying == old(isPlaying)
      ensures old(isTransitioning) ==> currentIndex == old(currentIndex) && isTransitioning
      ensures !old(isTransitioning) ==> currentIndex == PrevIndex(old(currentIndex), count) && isTransitioning
      ensures intervalSawTransition == if currentIndex != old(currentIndex) then true else old(intervalSawTransition)
    {
      if isTransitioning {
        return;
      }
      isTransitioning := true;
      var before := currentIndex;
      currentIndex := PrevIndex(currentIndex, count);
      if currentIndex != before {
        intervalSawTransition := true;
      }
    }

    /** `goToSlide` from an indicator: ignored during a transition or on
        the image already shown. */
    method GoTo(index: nat)
      requires Valid() && index < count
      modifies this
      ensures Valid() && isPlaying == old(isPlaying)
      ensures old(isTransitioning) || index == old(currentIndex) ==>
        currentIndex == old(currentIndex) && isTransitioning == old(isTransitioning)
        && intervalSawTransition == old(intervalSawTransition)
      ensures !old(isTransitioning) && index != old(currentIndex) ==>
        currentIndex == index && isTransitioning && intervalSawTransition
    {
      if isTransitioning || index == currentIndex {
        return;
      }
      isTransitioning := true;
      currentIndex := index;
      intervalSawTransition := true;
    }

    /** The timeout after a move: the transition is over. Neither the index
        nor autoplay changes, so the interval keeps what it saw. */
    method TransitionEnd()
      requires Valid()
      modifies this
      ensures Valid() && !isTransitioning
      ensures currentIndex == old(currentIndex) && isPlaying == old(isPlaying)
      ensures intervalSawTransition == old(intervalSawTransition)
    {
      isTransitioning := false;
    }

    /** `togglePlayPause`: the interval is set up again and sees the
        transition flag of this moment. */
    method TogglePlayPause()
      requires Valid()
      modifies this
      ensures Valid() && isPlaying == !old(isPlaying)
      ensures currentIndex == old(currentIndex) && isTransitioning == old(isTransitioning)
      ensures intervalSawTransition == isTransitioning
    {
      isPlaying := !isPlaying;
      intervalSawTransition := isTransitioning;
    }

    /** The autoplay interval firing. There is no interval while paused.
        The callback runs the `nextSlide` of the render that set the
        interval up: its transition check reads what that render saw,
        while the step itself starts from the current index. */
    method Tick()
      requires Valid()
      modifies this
      ensures Valid() && isPlaying == old(isPlaying)
      ensures !old(isPlaying) || old(intervalSawTransition) ==>
        currentIndex == old(currentIndex) && isTransitioning == old(isTransitioning)
        && intervalSawTransition == old(intervalSawTransition)
      ensures old(isPlaying) && !old(intervalSawTransition) ==>
        currentIndex == NextIndex(old(currentIndex), count) && isTransitioning
        && intervalSawTransition == (currentIndex != old(currentIndex))
    {
      if !isPlaying || intervalSawTransition {
        return;
      }
      isTransitioning := true;
      var before := currentIndex;
      currentIndex := NextIndex(currentIndex, count);
      if currentIndex != before {
        intervalSawTransition := true;
      }
    }

    /** The interval as evidently meant: each firing is a `nextSlide` that
        reads the current transition flag. */
    method TickIntended()
      requires Valid()
      modifies this
      ensures Valid() && isPlaying == old(isPlaying)
      ensures !old(isPlaying) ==> currentIndex == old(currentIndex) && isTransitioning == old(isTransitioning)
      ensures old(isPlaying) && old(isTransitioning) ==> currentIndex == old(currentIndex) && isTransitioning
      ensures old(isPlaying) && !old(isTransitioning) ==>
        currentIndex == NextIndex(old(currentIndex), count) && isTransitioning
    {
      if isPlaying {
        Next();
      }
    }

    /** The slider's key handler: the arrows are `prevSlide` and
        `nextSlide` with the current transition flag, space toggles
        autoplay, any other key is ignored. */
    method HandleKey(key: string)
      requires Valid()
      modifies this
      ensures Valid()
      ensures KeyCommand(key) != PlayPause ==> isPlaying == old(isPlaying)
      ensures KeyCommand(key) in {Previous, Following} ==> isTransitioning
      ensures KeyCommand(key) in {Previous, Following} && old(isTransitioning) ==>
        currentIndex == old(currentIndex)
      ensures KeyCommand(key) == Previous && !old(isTransitioning) ==>
        currentIndex == PrevIndex(old(currentIndex), count)
      ensures KeyCommand(key) == Following && !old(isTransitioning) ==>
        currentIndex == NextIndex(old(currentIndex), count)
      ensures KeyCommand(key) in {Previous, Following} ==>
        intervalSawTransition == if currentIndex != old(currentIndex) then true else old(intervalSawTransition)
      ensures KeyCommand(key) == PlayPause ==>
        isPlaying == !old(isPlaying) && currentIndex == old(currentIndex)
        && isTransitioning == old(isTransitioning) && intervalSawTransition == isTransitioning
      ensures KeyCommand(key) == Ignore ==>
        currentIndex == old(currentIndex) && isPlaying == old(isPlaying) && isTransitioning == old(isTransitioning)
        && intervalSawTransition == old(intervalSawTransition)
    {
      match KeyCommand(key)
      case Previous => Prev();
      case Following => Next();
      case PlayPause => TogglePlayPause();
      case Ignore =>
    }
  }

  /** Forward, the transition's end, then back: the same image again. */
  method ForwardThenBack(s: ImageSlider)
    requires s.Valid() && !s.isTransitioning
    modifies s
    ensures s.Valid() && s.currentIndex == old(s.currentIndex)
  {
    s.Next();
    s.TransitionEnd();
    s.Prev();
    StepsUndo(old(s.currentIndex), s.count);
  }

  /** Toggling autoplay twice changes nothing. */
  method ToggleTwice(s: ImageSlider)
    requires s.Valid()
    modifies s
    ensures s.Valid() && s.isPlaying == old(s.isPlaying)
    ensures s.currentIndex == old(s.currentIndex) && s.isTransitioning == old(s.isTransitioning)
    ensures s.intervalSawTransition == s.isTransitioning
  {
    s.TogglePlayPause();
    s.TogglePlayPause();
  }

  /** Autoplay as written, with two or more images and no user input: the
      first firing steps forward; after the transition ends the interval
      still sees the transition of its own step, so the second firing does
      nothing, and every firing after it does nothing either. */
  method AutoplayStalls(s: ImageSlider)
    requires s.Valid() && s.count >= 2 && s.isPlaying && !s.isTransitioning && !s.intervalSawTransition
    modifies s
    ensures s.Valid() && s.isPlaying && !s.isTransitioning && s.intervalSawTransition
    ensures s.currentIndex == NextIndex(old(s.currentIndex), s.count)
  {
    s.Tick();
    s.TransitionEnd();
    s.Tick();
  }

  /** Autoplay as intended: two firings, with the transition's end between
      them, are two steps forward. */
  method AutoplayAdvances(s: ImageSlider)
    requires s.Valid() && s.isPlaying && !s.isTransitioning
    modifies s
    ensures s.Valid() && s.isPlaying && s.isTransitioning
    ensures s.currentIndex == Advance(old(s.currentIndex), 2, s.count)
  {
    ghost var start := s.currentIndex;
    s.TickIntended();
    s.TransitionEnd();
    s.TickIntended();
    assert Advance(start, 1, s.count) == NextIndex(start, s.count);
  }
}
