/** The proposal's celebration: continuing opens the overlay and, the first time only,
    schedules a burst of rising hearts; clicking the overlay closes it and hands on. */
module Proposal {

  const HeartCount: nat := 20
  const HeartSpacingMs: nat := 200

  /** The delays at which the first `n` hearts of a burst are scheduled. */
  function BurstDelays(n: nat): (d: seq<nat>)
    ensures |d| == n
    ensures forall i :: 0 <= i < n ==> d[i] == i * HeartSpacingMs
  {
    seq(n, i => i * HeartSpacingMs)
  }

  /** A burst is 20 hearts, 200 ms apart, starting at once and ending at 3800 ms. */
  lemma BurstShape()
    ensures |BurstDelays(HeartCount)| == 20
    ensures BurstDelays(HeartCount)[0] == 0 && BurstDelays(HeartCount)[19] == 3800
    ensures forall i :: 0 < i < 20 ==> BurstDelays(HeartCount)[i] - BurstDelays(HeartCount)[i - 1] == 200
  {
  }

  class Proposal {
    var showCelebration: bool
    var heartsCreated: bool
    /** The delays of every heart timer scheduled so far. */
    var scheduledHearts: seq<nat>
    /** How often `onContinue` and `onBeginAgain` have been called. */
    var continueCalls: nat
    var beginAgainCalls: nat

    /** Hearts are scheduled exactly once: none before the first continue, one burst after. */
    ghost predicate Valid()
      reads this
    {
      scheduledHearts == if heartsCreated then BurstDelays(HeartCount) else []
    }

    constructor ()
      ensures Valid()
      ensures !showCelebration && !heartsCreated && scheduledHearts == []
      ensures continueCalls == 0 && beginAgainCalls == 0
    {
      showCelebration, heartsCreated := false, false;
      scheduledHearts := [];
      continueCalls, beginAgainCalls := 0, 0;
    }

    /** `handleContinue`: the overlay opens; the first call schedules the burst, later
        calls schedule nothing. */
    method HandleContinue()
      requires Valid()
      modifies this
      ensures Valid()
      ensures showCelebration && heartsCreated
      ensures scheduledHearts == if old(heartsCreated) then old(scheduledHearts) else BurstDelays(HeartCount)
      ensures continueCalls == old(continueCalls) && beginAgainCalls == old(beginAgainCalls)
    {
      showCelebration := true;
      if !heartsCreated {
        heartsCreated := true;
        var i := 0;
        while i < HeartCount
          invariant 0 <= i <= HeartCount
          invariant scheduledHearts == BurstDelays(i)
          modifies this`scheduledHearts
        {
          scheduledHearts := scheduledHearts + [i * HeartSpacingMs];
          i := i + 1;
        }
      }
    }

    /** The overlay's click handler; the overlay is on screen only while celebrating. */
    method OverlayClick()
      requires Valid() && showCelebration
      modifies this
      ensures Valid()
      ensures !showCelebration && continueCalls == old(continueCalls) + 1
      ensures heartsCreated == old(heartsCreated) && scheduledHearts == old(scheduledHearts)
      ensures beginAgainCalls == old(beginAgainCalls)
    {
      showCelebration := false;
      continueCalls := continueCalls + 1;
    }

    /** "Start over" hands on to `onBeginAgain` and touches no local state. */
    method StartOver()
      requires Valid()
      modifies this
      ensures Valid()
      ensures beginAgainCalls == old(beginAgainCalls) + 1
      ensures showCelebration == old(showCelebration) && heartsCreated == old(heartsCreated)
      ensures scheduledHearts == old(scheduledHearts) && continueCalls == old(continueCalls)
    {
      beginAgainCalls := beginAgainCalls + 1;
    }
  }

  /** However often the user continues, one burst of 20 hearts is scheduled in all. */
  method ContinueTwice() returns (hearts: nat)
    ensures hearts == 20
  {
    var p := new Proposal();
    p.HandleContinue();
    p.OverlayClick();
    p.HandleContinue();
    hearts := |p.scheduledHearts|;
  }
}
