/** The home page: the hero carousel over its three fixed slides, and where
    the upload button leads. */
module Home {
  import opened Carousel

  /** A slide of the hero carousel. */
  datatype Slide = Slide(id: nat, title: string, buttonText: string)

  const Slides: seq<Slide> := [
    Slide(1, "LASER CUTTING & BENDING - 24X7 ONLINE", "Upload Files"),
    Slide(2, "PRECISION MANUFACTURING SOLUTIONS", "Get Started"),
    Slide(3, "INDUSTRIAL EXCELLENCE & INNOVATION", "Learn More")
  ]

  /** `handleUploadFiles`: signed-in users start an inquiry, others sign up. */
  function UploadTarget(signedIn: bool): (path: string)
    ensures signedIn <==> path == "/inquiry/new"
    ensures !signedIn <==> path == "/signup"
  {
    if signedIn then "/inquiry/new" else "/signup"
  }

  class HomeCarousel {
    var currentSlide: nat

    ghost predicate Valid()
      reads this
    {
      currentSlide < |Slides|
    }

    constructor ()
      ensures Valid() && currentSlide == 0
    {
      currentSlide := 0;
    }

    /** `goToNextSlide`, and the five-second interval's step. */
    method Next()
      requires Valid()
      modifies this
      ensures Valid() && currentSlide == NextIndex(old(currentSlide), |Slides|)
    {
      currentSlide := NextIndex(currentSlide, |Slides|);
    }

    /** `goToPreviousSlide`. */
    method Previous()
      requires Valid()
      modifies this
      ensures Valid() && currentSlide == PrevIndex(old(currentSlide), |Slides|)
    {
      currentSlide := PrevIndex(currentSlide, |Slides|);
    }

    /** `goToSlide` from the indicator at position `index`. */
    method GoTo(index: nat)
      requires Valid() && index < |Slides|
      modifies this
      ensures Valid() && currentSlide == index
    {
      currentSlide := index;
    }
  }

  /** Three ticks show the first slide again. */
  method FullRotation(c: HomeCarousel)
    requires c.Valid()
    modifies c
    ensures c.Valid() && c.currentSlide == old(c.currentSlide)
  {
    c.Next();
    c.Next();
    c.Next();
    FullTurn(old(c.currentSlide), |Slides|);
  }
}
