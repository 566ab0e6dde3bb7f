/** The onboarding pager: three slides, the index of the slide the pager settled on, the Next
    button that scrolls one slide on or leaves for the subscription screen on the last slide,
    its label, and the pagination dots. */
module Onboard {

  datatype Slide = Slide(id: string, title: string, description: string)

  function Slides(): seq<Slide> {
    [ Slide("1", "Access Medical Records", "View test results and prescriptions anytime."),
      Slide("2", "Consult Doctors Online", "Connect with certified doctors easily."),
      Slide("3", "Order Medicines", "Get medicines delivered to your doorstep.") ]
  }

  /** What a press on Next asks for. */
  datatype NextAction = ScrollTo(index: int) | OpenSubscription

  /** `handleNext` for a pager of `count` slides at `currentIndex`: before the last slide it
      scrolls to the next one, which is never past the last; otherwise it leaves. */
  function NextFor(currentIndex: int, count: nat): (a: NextAction)
    ensures a.ScrollTo? <==> currentIndex < count - 1
    ensures a.ScrollTo? ==> a.index == currentIndex + 1 && a.index <= count - 1
  {
    if currentIndex < count - 1 then ScrollTo(currentIndex + 1) else OpenSubscription
  }

  /** The button's text. */
  function NextLabel(currentIndex: int, count: nat): (s: string)
    ensures s == "Get Started" <==> currentIndex == count - 1
    ensures s == "Next" <==> currentIndex != count - 1
  {
    if currentIndex == count - 1 then "Get Started" else "Next"
  }

  /** On a slide of the pager the label announces what the press does: "Get Started" exactly
      when Next leaves for the subscription screen. */
  lemma LabelAnnouncesAction(currentIndex: int, count: nat)
    requires 0 <= currentIndex < count
    ensures NextLabel(currentIndex, count) == "Get Started" <==> NextFor(currentIndex, count) == OpenSubscription
  {
  }

  /** The pagination dots: dot `k` is active when `k` is the current index. */
  function Dots(currentIndex: int, count: nat): (dots: seq<bool>)
    ensures |dots| == count
    ensures forall k :: 0 <= k < count ==> (dots[k] <==> k == currentIndex)
  {
    seq(count, k => k == currentIndex)
  }

  /** With the index on a slide exactly one dot is active; off the slides none is. */
  lemma ExactlyOneDot(currentIndex: int, count: nat)
    ensures 0 <= currentIndex < count ==> Dots(currentIndex, count)[currentIndex]
    ensures forall k, l ::
      0 <= k < count && 0 <= l < count && Dots(currentIndex, count)[k] && Dots(currentIndex, count)[l] ==> k == l
    ensures !(0 <= currentIndex < count) ==> forall k :: 0 <= k < count ==> !Dots(currentIndex, count)[k]
  {
  }

  /** Pressing Next on each slide in turn, with the pager settling where it was sent, visits the
      three slides and then leaves on the third press. */
  lemma WalkThrough()
    ensures NextFor(0, |Slides()|) == ScrollTo(1) && NextLabel(0, |Slides()|) == "Next"
    ensures NextFor(1, |Slides()|) == ScrollTo(2) && NextLabel(1, |Slides()|) == "Next"
    ensures NextFor(2, |Slides()|) == OpenSubscription && NextLabel(2, |Slides()|) == "Get Started"
  {
  }

  /** The screen's state: `currentIndex`, set when a scroll settles. */
  class OnboardScreen {
    var currentIndex: int

    /** The pager opens on the first slide. */
    constructor ()
      ensures currentIndex == 0
    {
      currentIndex := 0;
    }

    /** `handleScroll`: the pager settled on slide `index`, already rounded from the offset. */
    method ScrollSettled(index: int)
      modifies this
      ensures currentIndex == index
    {
      currentIndex := index;
    }

    /** A press on Next: the index is not changed by the press itself, only by the scroll it
        requests once that settles. */
    method PressNext() returns (a: NextAction)
      ensures a.ScrollTo? <==> currentIndex < |Slides()| - 1
      ensures a.ScrollTo? ==> a.index == currentIndex + 1 && a.index < |Slides()|
    {
      a := NextFor(currentIndex, |Slides()|);
    }

    function Label(): (s: string)
      reads this
      ensures s == "Get Started" <==> currentIndex == |Slides()| - 1
      ensures s == "Next" <==> currentIndex != |Slides()| - 1
    {
      NextLabel(currentIndex, |Slides()|)
    }
  }
}
