/** The navigation script embedded in the story template: a current slide index over
    the template's slides, moved by next/prev, with the slide, progress-bar, indicator
    and arrow state recomputed from it. Key presses and swipes map onto next/prev. */
module StoryNavigation {
  import opened Text
  import opened ImageExport

  datatype Command = Next | Prev | Ignore

  /** The minimum horizontal travel, in pixels, that counts as a swipe. */
  const SwipeThreshold: int := 50

  /** ArrowRight and Space go forward, ArrowLeft goes back, any other key does nothing. */
  function KeyCommand(key: string): (c: Command)
    ensures c == Next <==> key == "ArrowRight" || key == " "
    ensures c == Prev <==> key == "ArrowLeft"
  {
    if key == "ArrowRight" || key == " " then Next
    else if key == "ArrowLeft" then Prev
    else Ignore
  }

  /** A swipe from `startX` to `endX`: more than 50 pixels leftwards goes forward, more
      than 50 pixels rightwards goes back, anything shorter does nothing. */
  function SwipeCommand(startX: int, endX: int): (c: Command)
    ensures c == Next <==> startX - endX > SwipeThreshold
    ensures c == Prev <==> endX - startX > SwipeThreshold
    ensures c == Ignore <==> -SwipeThreshold <= startX - endX <= SwipeThreshold
  {
    var diff := startX - endX;
    if (if diff < 0 then -diff else diff) > SwipeThreshold then
      (if diff > 0 then Next else Prev)
    else Ignore
  }

  /** `nextStory`: one step forward, except at the last slide. */
  function NextIndex(current: nat, total: nat): (r: nat)
    ensures current < total ==> r < total
    ensures r == current || r == current + 1
    ensures r == current + 1 <==> current + 1 < total
  {
    if current + 1 < total then current + 1 else current
  }

  /** `prevStory`: one step back, except at the first slide. */
  function PrevIndex(current: nat): (r: nat)
    ensures r <= current
    ensures r == current - 1 <==> current > 0
  {
    if current > 0 then current - 1 else current
  }

  function Apply(cmd: Command, current: nat, total: nat): nat {
    match cmd
    case Next => NextIndex(current, total)
    case Prev => PrevIndex(current)
    case Ignore => current
  }

  /** The index after a run of commands. */
  function Run(cmds: seq<Command>, current: nat, total: nat): nat
    decreases |cmds|
  {
    if cmds == [] then current else Run(cmds[1..], Apply(cmds[0], current, total), total)
  }

  /** Stepping back undoes a step forward, and a step forward undoes a step back. */
  lemma NextPrevInverse(current: nat, total: nat)
    ensures current + 1 < total ==> PrevIndex(NextIndex(current, total)) == current
    ensures 0 < current < total ==> NextIndex(PrevIndex(current), total) == current
  {
  }

  /** No run of commands leaves the slides. */
  lemma {:induction false} RunStaysInRange(cmds: seq<Command>, current: nat, total: nat)
    requires current < total
    ensures Run(cmds, current, total) < total
    decreases |cmds|
  {
    if cmds != [] {
      RunStaysInRange(cmds[1..], Apply(cmds[0], current, total), total);
    }
  }

  /** `n` steps forward from slide `current` reach slide `min(current + n, total - 1)`. */
  lemma {:induction false} ForwardSteps(n: nat, current: nat, total: nat)
    requires current < total
    ensures Run(seq(n, _ => Next), current, total) == if current + n < total then current + n else total - 1
    decreases n
  {
    var cmds := seq(n, _ => Next);
    if n > 0 {
      assert cmds[0] == Next;
      assert cmds[1..] == seq(n - 1, _ => Next);
      ForwardSteps(n - 1, NextIndex(current, total), total);
    }
  }

  datatype BarClass = Active | Completed

  /** The classes progress bar `i` carries when slide `current` is shown. */
  function BarClasses(i: nat, current: nat): (r: set<BarClass>)
    ensures Completed in r <==> i < current
    ensures Active in r <==> i == current
  {
    (if i < current then {Completed} else {}) + (if i == current then {Active} else {})
  }

  class StoryViewer {
    /** The number of slides (`totalStories`). */
    const total: nat
    var currentIndex: nat
    /** Whether each slide carries the `active` class. */
    const slideActive: array<bool>
    /** The state classes of each progress bar. */
    const bars: array<set<BarClass>>
    var indicator: string
    var leftArrowVisible: bool
    var rightArrowHidden: bool
    var touchStartX: int

    /** Every piece of the page agrees with the current index. */
    ghost predicate Valid()
      reads this, slideActive, bars
    {
      && slideActive.Length == total && bars.Length == total
      && currentIndex < total
      && (forall i :: 0 <= i < total ==> slideActive[i] == (i == currentIndex))
      && (forall i :: 0 <= i < total ==> bars[i] == BarClasses(i, currentIndex))
      && indicator == IndicatorText(currentIndex + 1, total)
      && leftArrowVisible == (currentIndex != 0)
      && rightArrowHidden == (currentIndex == total - 1)
    }

    /** Loading the page: slide 0 is current, the page starts as the template wrote it,
        and the script's final `updateStory()` call brings every piece in line. */
    constructor (doc: Template)
      requires doc.totalStories >= 1 && |doc.slides| == doc.totalStories == doc.progressBars
      ensures Valid() && fresh(slideActive) && fresh(bars)
      ensures total == doc.totalStories && currentIndex == 0 && touchStartX == 0
    {
      total := doc.totalStories;
      currentIndex := 0;
      slideActive := new bool[doc.totalStories](i requires 0 <= i < doc.totalStories => doc.slides[i].initiallyActive);
      bars := new set<BarClass>[doc.totalStories](_ => {});
      indicator := doc.indicator;
      leftArrowVisible, rightArrowHidden := false, false;
      touchStartX := 0;
      new;
      UpdateStory();
    }

    /** `updateStory`: recompute the slides, the progress bars, the indicator and the
        arrows from the current index. */
    method UpdateStory()
      requires slideActive.Length == total && bars.Length == total && currentIndex < total
      modifies this`indicator, this`leftArrowVisible, this`rightArrowHidden, slideActive, bars
      ensures Valid()
    {
      var i := 0;
      while i < slideActive.Length
        invariant 0 <= i <= slideActive.Length
        invariant forall k :: 0 <= k < i ==> slideActive[k] == (k == currentIndex)
      {
        slideActive[i] := i == currentIndex;
        i := i + 1;
      }
      i := 0;
      while i < bars.Length
        invariant 0 <= i <= bars.Length
        invariant forall k :: 0 <= k < i ==> bars[k] == BarClasses(k, currentIndex)
        invariant forall k :: 0 <= k < slideActive.Length ==> slideActive[k] == (k == currentIndex)
      {
        var classes := bars[i] - {Active, Completed};
        if i < currentIndex { classes := classes + {Completed}; }
        if i == currentIndex { classes := classes + {Active}; }
        assert classes == BarClasses(i, currentIndex) by {
          forall c ensures c in classes <==> c in BarClasses(i, currentIndex) {
            match c
            case Active =>
            case Completed =>
          }
        }
        bars[i] := classes;
        i := i + 1;
      }
      indicator := IndicatorText(currentIndex + 1, total);
      if currentIndex == 0 {
        leftArrowVisible := false;
      } else {
        leftArrowVisible := true;
      }
      if currentIndex == total - 1 {
        rightArrowHidden := true;
      } else {
        rightArrowHidden := false;
      }
    }

    /** `nextStory` */
    method NextStory()
      requires Valid()
      modifies this`currentIndex, this`indicator, this`leftArrowVisible, this`rightArrowHidden, slideActive, bars
      ensures Valid()
      ensures currentIndex == NextIndex(old(currentIndex), total)
    {
      if currentIndex < total - 1 {
        currentIndex := currentIndex + 1;
        UpdateStory();
      }
    }

    /** `prevStory` */
    method PrevStory()
      requires Valid()
      modifies this`currentIndex, this`indicator, this`leftArrowVisible, this`rightArrowHidden, slideActive, bars
      ensures Valid()
      ensures currentIndex == PrevIndex(old(currentIndex))
    {
      if currentIndex > 0 {
        currentIndex := currentIndex - 1;
        UpdateStory();
      }
    }

    /** The `keydown` listener. */
    method OnKeyDown(key: string)
      requires Valid()
      modifies this`currentIndex, this`indicator, this`leftArrowVisible, this`rightArrowHidden, slideActive, bars
      ensures Valid()
      ensures currentIndex == Apply(KeyCommand(key), old(currentIndex), total)
    {
      if key == "ArrowRight" || key == " " {
        NextStory();
      }
      if key == "ArrowLeft" {
        PrevStory();
      }
    }

    /** The `touchstart` listener. */
    method OnTouchStart(x: int)
      modifies this`touchStartX
      ensures touchStartX == x
    {
      touchStartX := x;
    }

    /** The `touchend` listener. */
    method OnTouchEnd(x: int)
      requires Valid()
      modifies this`currentIndex, this`indicator, this`leftArrowVisible, this`rightArrowHidden, slideActive, bars
      ensures Valid() && touchStartX == old(touchStartX)
      ensures currentIndex == Apply(SwipeCommand(old(touchStartX), x), old(currentIndex), total)
    {
      var diff := touchStartX - x;
      if (if diff < 0 then -diff else diff) > SwipeThreshold {
        if diff > 0 {
          NextStory();
        } else {
          PrevStory();
        }
      }
    }
  }
}
