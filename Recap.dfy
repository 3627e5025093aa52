/** The recap slideshow: a current index advanced by an interval tick, which stops at
    the last slide and schedules completion; a skip completes at once. The interval and
    the completion delay become explicit timer events. */
module Recap {
  import opened Catalog
  import opened Text

  const SlideIntervalMs: nat := 3000
  const CompletionDelayMs: nat := 1500
  /** Story text in the recap is cut to this many characters. */
  const RecapStoryCap: nat := 200

  /** The ticker's state: the index, the skip flag, whether the interval is running,
      whether the delayed completion is scheduled, and how often `onComplete` ran. */
  datatype Ticker = Ticker(index: nat, skipped: bool, running: bool, completionPending: bool, completions: nat)

  /** On mount the interval runs exactly when the recap is visible. */
  function InitialTicker(visible: bool): Ticker {
    Ticker(0, false, visible, false, 0)
  }

  /** One interval period: below the last slide the index goes up by one; at the last
      slide (or with no slides at all) the interval stops and completion is scheduled.
      A stopped interval does nothing. */
  function Tick(t: Ticker, count: nat): (r: Ticker)
    ensures !t.running ==> r == t
    ensures r.skipped == t.skipped && r.completions == t.completions
    ensures t.index <= r.index <= t.index + 1
    ensures t.index <= LastIndex(count) ==> r.index <= LastIndex(count)
    ensures r.index != t.index ==> t.running && r.running && t.index < LastIndex(count)
    ensures t.running && !r.running ==> r.completionPending && r.index == t.index
    ensures t.completionPending ==> r.completionPending
  {
    if !t.running then t
    else if t.index >= count - 1 then t.(running := false, completionPending := true)
    else t.(index := t.index + 1)
  }

  /** The completion delay elapses: `onComplete` runs once for the scheduled completion. */
  function FireCompletion(t: Ticker): (r: Ticker)
    ensures !r.completionPending
    ensures r.completions == t.completions + (if t.completionPending then 1 else 0)
    ensures r.index == t.index && r.skipped == t.skipped && r.running == t.running
  {
    if t.completionPending then t.(completionPending := false, completions := t.completions + 1) else t
  }

  /** `handleSkip`: the interval stops and `onComplete` runs at once. An already
      scheduled completion is not cancelled. */
  function Skip(t: Ticker): (r: Ticker)
    ensures r.skipped && !r.running && r.completions == t.completions + 1
    ensures r.index == t.index && r.completionPending == t.completionPending
  {
    t.(skipped := true, running := false, completions := t.completions + 1)
  }

  /** `k` interval periods in a row. */
  function Ticks(k: nat, t: Ticker, count: nat): Ticker {
    if k == 0 then t else Tick(Ticks(k - 1, t, count), count)
  }

  /** The last index the ticker can show (0 when there are no slides). */
  function LastIndex(count: nat): nat {
    if count == 0 then 0 else count - 1
  }

  /** The tick on which completion is scheduled: the `count`-th, or the first when
      there are no slides. */
  function StopTick(count: nat): nat {
    if count == 0 then 1 else count
  }

  /** From a visible start with no skip, after `k` ticks the index is `min(k, last)`, the
      interval still runs exactly while `k` is below the stop tick, and completion is
      scheduled from the stop tick on, never earlier; `onComplete` has not run yet. */
  lemma {:induction false} TicksFromStart(k: nat, count: nat)
    ensures var t := Ticks(k, InitialTicker(true), count);
            && t.index == (if k < LastIndex(count) then k else LastIndex(count))
            && (t.running <==> k < StopTick(count))
            && (t.completionPending <==> k >= StopTick(count))
            && !t.skipped && t.completions == 0
  {
    if k > 0 {
      TicksFromStart(k - 1, count);
    }
  }

  /** The time from the recap appearing to `onComplete`, when nothing is skipped: the
      stop tick's period, then the completion delay. */
  function CompletionTimeMs(count: nat): (ms: nat)
    ensures ms >= SlideIntervalMs + CompletionDelayMs
  {
    StopTick(count) * SlideIntervalMs + CompletionDelayMs
  }

  /** For the five-prompt catalog, completion is first scheduled on the fifth tick, so
      `onComplete` runs 16500 ms after the recap appears. */
  lemma CatalogCompletionTime()
    ensures !Ticks(StopTick(|Sections|) - 1, InitialTicker(true), |Sections|).completionPending
    ensures Ticks(StopTick(|Sections|), InitialTicker(true), |Sections|).completionPending
    ensures StopTick(|Sections|) == 5 && CompletionTimeMs(|Sections|) == 16500
  {
    TicksFromStart(StopTick(|Sections|) - 1, |Sections|);
    TicksFromStart(StopTick(|Sections|), |Sections|);
  }

  /** After a skip no tick changes anything. */
  lemma {:induction false} SkipFreezesTicker(k: nat, t: Ticker, count: nat)
    ensures Ticks(k, Skip(t), count) == Skip(t)
  {
    if k > 0 {
      SkipFreezesTicker(k - 1, t, count);
    }
  }

  /** A hidden recap never ticks. */
  lemma {:induction false} HiddenNeverTicks(k: nat, count: nat)
    ensures Ticks(k, InitialTicker(false), count) == InitialTicker(false)
  {
    if k > 0 {
      HiddenNeverTicks(k - 1, count);
    }
  }

  /** The recap's own expression for story text, `slice(0, 200)` then `...` when longer
      than 200, is the shared truncation with a cap of 200. */
  function RecapStoryText(s: string): (r: string)
    ensures r == Truncate(s, RecapStoryCap)
  {
    s[..if |s| < RecapStoryCap then |s| else RecapStoryCap] + (if |s| > RecapStoryCap then Ellipsis else "")
  }

  datatype Dot = CurrentDot | PastDot | UpcomingDot

  /** The style of progress dot `idx` while slide `current` is shown. */
  function DotAt(idx: nat, current: nat): (d: Dot)
    ensures d == CurrentDot <==> idx == current
    ensures d == PastDot <==> idx < current
    ensures d == UpcomingDot <==> idx > current
  {
    if idx == current then CurrentDot else if idx < current then PastDot else UpcomingDot
  }

  /** What one recap slide shows. */
  datatype RecapView = RecapView(subtitle: Option<string>, photo: Option<string>, story: Option<string>,
                                 momentLine: Option<string>, dots: seq<Dot>)

  const MomentLine: string := "A moment worth remembering"

  /** The slide for index `current`: subtitle, photo when truthy, the story cut to 200
      characters when there is one, the "moment worth remembering" line only for a
      photo without a story, and one dot per section. */
  function RecapSlide(sections: seq<Section>, current: nat, stories: Stories, photos: Photos): (v: RecapView)
    ensures |v.dots| == |sections|
    ensures forall i :: 0 <= i < |sections| ==> v.dots[i] == DotAt(i, current)
    ensures current < |sections| ==>
              var id := sections[current].id;
              && v.subtitle == Some(sections[current].subtitle)
              && v.photo == PhotoOf(photos, id)
              && (v.story.Some? <==> StoryOf(stories, id) != "")
              && (v.story.Some? ==> v.story.value == Truncate(StoryOf(stories, id), RecapStoryCap))
              && (v.momentLine.Some? <==> StoryOf(stories, id) == "" && HasPhoto(photos, id))
    ensures current >= |sections| ==> v.subtitle.None? && v.photo.None? && v.story.None? && v.momentLine.None?
    ensures v.momentLine.Some? ==> v.momentLine.value == MomentLine && v.story.None? && v.photo.Some?
  {
    var dots := seq(|sections|, i requires 0 <= i < |sections| => DotAt(i, current));
    if current < |sections| then
      var id := sections[current].id;
      var story := StoryOf(stories, id);
      RecapView(Some(sections[current].subtitle), PhotoOf(photos, id),
                if story != "" then Some(RecapStoryText(story)) else None,
                if story == "" && HasPhoto(photos, id) then Some(MomentLine) else None, dots)
    else
      RecapView(None, None, None, None, dots)
  }

  class RecapPlayer {
    const sectionCount: nat
    const isVisible: bool
    var currentIndex: nat
    var isSkipped: bool
    var intervalRunning: bool
    var completionPending: bool
    /** How many times `onComplete` has been called. */
    var completions: nat

    function State(): Ticker
      reads this
    {
      Ticker(currentIndex, isSkipped, intervalRunning, completionPending, completions)
    }

    /** The index stays within the slides; the interval runs only while visible and not
        skipped, and never alongside a scheduled completion. */
    ghost predicate Valid()
      reads this
    {
      && currentIndex <= LastIndex(sectionCount)
      && (intervalRunning ==> isVisible && !isSkipped && !completionPending)
    }

    /** Mounting the recap for `count` sections. */
    constructor (count: nat, visible: bool)
      ensures Valid() && sectionCount == count && isVisible == visible
      ensures State() == InitialTicker(visible)
    {
      sectionCount, isVisible := count, visible;
      currentIndex, isSkipped, intervalRunning, completionPending, completions := 0, false, visible, false, 0;
    }

    /** The interval callback, once per 3000 ms period while the interval runs. */
    method OnIntervalTick()
      requires Valid()
      modifies this
      ensures Valid()
      ensures State() == Tick(old(State()), sectionCount)
    {
      if intervalRunning {
        if currentIndex >= sectionCount - 1 {
          intervalRunning := false;
          completionPending := true;
        } else {
          currentIndex := currentIndex + 1;
        }
      }
    }

    /** The 1500 ms completion timer fires. */
    method OnCompletionTimer()
      requires Valid()
      modifies this
      ensures Valid()
      ensures State() == FireCompletion(old(State()))
    {
      if completionPending {
        completionPending := false;
        completions := completions + 1;
      }
    }

    /** `handleSkip`; the skip button only exists while the recap is visible. */
    method HandleSkip()
      requires Valid() && isVisible
      modifies this
      ensures Valid()
      ensures State() == Skip(old(State()))
    {
      isSkipped := true;
      completions := completions + 1;
      intervalRunning := false;
    }

    /** The rendered output: nothing while hidden, the current slide otherwise. */
    function View(sections: seq<Section>, stories: Stories, photos: Photos): (v: Option<RecapView>)
      reads this
      ensures v.None? <==> !isVisible
      ensures v.Some? ==> v.value == RecapSlide(sections, currentIndex, stories, photos)
    {
      if !isVisible then None else Some(RecapSlide(sections, currentIndex, stories, photos))
    }
  }
}
