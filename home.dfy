/** The slideshow of the home page: which slide is shown, how the arrows and
    the dots move between slides, and which video element belongs to the
    shown slide. Pausing and playing the media is left to the browser. */
module Home {
  import opened Wrappers
  import opened Seqs

  datatype SlideType = Video | YouTube

  datatype Slide = Slide(src: string, alt: string, kind: SlideType, youtubeId: Option<string>, endTime: Option<int>)

  /** The four video slides the page starts with. */
  function InitialSlides(): (s: seq<Slide>)
    ensures |s| == 4 && forall i :: 0 <= i < |s| ==> s[i].kind == Video
  {
    [Slide("/assets/home.mp4", "Slide 1", Video, None, None),
     Slide("/assets/hero1.mp4", "Slide 2", Video, None, None),
     Slide("/assets/hero2.mp4", "Slide 3", Video, None, None),
     Slide("/assets/hero3.mp4", "Slide 4", Video, None, None)]
  }

  // ------------------------------------------------------------ navigation

  /** `nextSlide`: one on, wrapping from the last slide to the first. */
  function Next(current: int, count: int): (r: int)
    ensures current == count - 1 ==> r == 0
    ensures current != count - 1 ==> r == current + 1
  {
    if current == count - 1 then 0 else current + 1
  }

  /** `prevSlide`: one back, wrapping from the first slide to the last. */
  function Prev(current: int, count: int): (r: int)
    ensures current == 0 ==> r == count - 1
    ensures current != 0 ==> r == current - 1
  {
    if current == 0 then count - 1 else current - 1
  }

  /** Both arrows keep a valid index valid, and each undoes the other. */
  lemma NextPrevInverse(current: int, count: int)
    requires 0 <= current < count
    ensures 0 <= Next(current, count) < count && 0 <= Prev(current, count) < count
    ensures Prev(Next(current, count), count) == current
    ensures Next(Prev(current, count), count) == current
  {
  }

  /** Pressing "next" `k` times. */
  function NextTimes(current: int, count: int, k: nat): int
    decreases k
  {
    if k == 0 then current else Next(NextTimes(current, count, k - 1), count)
  }

  /** Pressing "next" `k` times (at most once around the deck) from slide
      `current` shows slide `current + k`, counted past the end from the
      first slide again; a whole round returns to the same slide. */
  lemma {:induction false} NextTimesCycles(current: int, count: int, k: nat)
    requires 0 <= current < count && k <= count
    ensures NextTimes(current, count, k) == if current + k < count then current + k else current + k - count
    ensures k == count ==> NextTimes(current, count, k) == current
    decreases k
  {
    if k > 0 {
      NextTimesCycles(current, count, k - 1);
    }
  }

  /** An index past the deck, as `goToSlide` can set, is never wrapped by
      "next": the arrow only moves further out. */
  lemma NextPastTheEnd(current: int, count: int)
    requires current >= count
    ensures Next(current, count) == current + 1
  {
  }

  // ----------------------------------------------------------- video index

  function IsVideo(): Slide -> bool {
    (s: Slide) => s.kind == Video
  }

  function Max0(n: int): nat {
    if n < 0 then 0 else n
  }

  /** With only video slides, the shown slide's video is the element with
      the same index. */
  lemma {:induction false} AllVideosIndex(slides: seq<Slide>, k: nat)
    requires k <= |slides|
    requires forall i :: 0 <= i < |slides| ==> slides[i].kind == Video
    ensures Count(slides[..k], IsVideo()) == k
    decreases k
  {
    if k > 0 {
      AllVideosIndex(slides, k - 1);
      assert slides[..k] == slides[..k - 1] + [slides[k - 1]];
      CountSnoc(slides[..k - 1], slides[k - 1], IsVideo());
    }
  }

  class HomeComponent {
    var slides: seq<Slide>
    var currentSlide: int

    constructor ()
      ensures slides == InitialSlides() && currentSlide == 0
    {
      slides := InitialSlides();
      currentSlide := 0;
    }

    method PrevSlide()
      modifies this`currentSlide
      ensures currentSlide == Prev(old(currentSlide), |slides|)
    {
      currentSlide := if currentSlide == 0 then |slides| - 1 else currentSlide - 1;
    }

    method NextSlide()
      modifies this`currentSlide
      ensures currentSlide == Next(old(currentSlide), |slides|)
    {
      currentSlide := if currentSlide == |slides| - 1 then 0 else currentSlide + 1;
    }

    /** `goToSlide`: the index is taken as given, without a range check;
        `changed` says whether the slide change was handled. */
    method GoToSlide(index: int) returns (changed: bool)
      modifies this`currentSlide
      ensures currentSlide == index
      ensures changed <==> old(currentSlide) != index
    {
      if currentSlide == index {
        return false;
      }
      currentSlide := index;
      changed := true;
    }

    /** The index counted by `playCurrentVideo`: the video element of the
        shown slide is the number of video slides before it. `Failure` when
        the index lies past the deck, where reading `slides[i].type` throws. */
    method PlayCurrentVideo() returns (r: Result<nat>)
      ensures currentSlide <= |slides| ==> r == Success(Count(slides[..Max0(currentSlide)], IsVideo()))
      ensures currentSlide > |slides| ==> r == Failure
    {
      var videoIndex := 0;
      var i := 0;
      while i < currentSlide
        invariant 0 <= i <= Max0(currentSlide)
        invariant i <= |slides|
        invariant videoIndex == Count(slides[..i], IsVideo())
      {
        if i >= |slides| {
          return Failure;
        }
        if slides[i].kind == Video {
          videoIndex := videoIndex + 1;
        }
        assert slides[..i + 1] == slides[..i] + [slides[i]];
        CountSnoc(slides[..i], slides[i], IsVideo());
        i := i + 1;
      }
      return Success(videoIndex);
    }
  }
}
