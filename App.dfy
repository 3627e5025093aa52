/** The top-level state container: the story and photo maps, the set of revealed
    sections, the stage flags, and an abstract single-slot store standing for the
    browser's local storage. Timers become explicit events. */
module App {
  import opened Catalog

  /** What a scheduled autosave captured when it was scheduled. */
  datatype Snapshot = Snapshot(stories: Stories, photos: Photos)

  /** One intersection report for a timeline section. */
  datatype Entry = Entry(id: string, isIntersecting: bool)

  /** The whole state, for stating what each handler changes. */
  datatype AppState = AppState(
    stories: Stories, photos: Photos, visibleSections: set<string>,
    transitionVisible: bool, pendingRecapStarts: nat, showRecap: bool, recapComplete: bool,
    proposalVisible: bool, showKeepMoment: bool,
    store: Option<StoryRecord>, pendingSaves: seq<Snapshot>)

  /** The ids an observer batch reports as intersecting. */
  function IntersectingIds(entries: seq<Entry>): set<string> {
    set e | e in entries && e.isIntersecting :: e.id
  }

  /** Which stages are on screen. */
  datatype Screen = Screen(recap: bool, proposal: bool, proposalVisible: bool, keepMoment: bool, footer: bool)

  class App {
    var stories: Stories
    var photos: Photos
    var visibleSections: set<string>
    var transitionVisible: bool
    /** Recap starts scheduled 2000 ms after the transition came into view. */
    var pendingRecapStarts: nat
    var showRecap: bool
    var recapComplete: bool
    var proposalVisible: bool
    var showKeepMoment: bool
    /** The single persisted record, if any. */
    var store: Option<StoryRecord>
    /** Autosaves scheduled 1000 ms after story edits, oldest first. */
    var pendingSaves: seq<Snapshot>

    function State(): AppState
      reads this
    {
      AppState(stories, photos, visibleSections, transitionVisible, pendingRecapStarts, showRecap,
               recapComplete, proposalVisible, showKeepMoment, store, pendingSaves)
    }

    /** The proposal can only have been revealed, and the keep-the-moment stage only
        opened, after the recap completed. */
    ghost predicate Valid()
      reads this
    {
      && (proposalVisible ==> recapComplete)
      && (showKeepMoment ==> recapComplete)
    }

    /** Mounting, including the load effect: the saved record's maps, if there is one. */
    constructor (saved: Option<StoryRecord>)
      ensures Valid()
      ensures State() == AppState(
                if saved.Some? then saved.value.stories else map[],
                if saved.Some? then saved.value.photos else map[],
                {}, false, 0, false, false, false, false, saved, [])
    {
      stories := if saved.Some? then saved.value.stories else map[];
      photos := if saved.Some? then saved.value.photos else map[];
      visibleSections := {};
      transitionVisible, pendingRecapStarts, showRecap, recapComplete := false, 0, false, false;
      proposalVisible, showKeepMoment := false, false;
      store := saved;
      pendingSaves := [];
    }

    /** `handleStoryChange`: the story of `id` becomes `value`, every other key stays, and
        an autosave of the stories (with this edit) and photos as they are now is scheduled. */
    method HandleStoryChange(id: string, value: string)
      requires Valid()
      modifies this
      ensures Valid()
      ensures State() == old(State()).(stories := old(stories)[id := value],
                                       pendingSaves := old(pendingSaves) + [Snapshot(old(stories)[id := value], old(photos))])
    {
      pendingSaves := pendingSaves + [Snapshot(stories[id := value], photos)];
      stories := stories[id := value];
    }

    /** The oldest scheduled autosave fires and writes its snapshot whole, stamped `now`. */
    method FireAutosave(now: string)
      requires Valid() && pendingSaves != []
      modifies this
      ensures Valid()
      ensures State() == old(State()).(store := Some(StoryRecord(old(pendingSaves)[0].stories, old(pendingSaves)[0].photos, now)),
                                       pendingSaves := old(pendingSaves)[1..])
    {
      store := Some(StoryRecord(pendingSaves[0].stories, pendingSaves[0].photos, now));
      pendingSaves := pendingSaves[1..];
    }

    /** `handlePhotoChange`: the photo of `id` becomes `photo` (possibly `null`), every
        other key stays, and the current stories with the new photos are saved at once. */
    method HandlePhotoChange(id: string, photo: Option<string>, now: string)
      requires Valid()
      modifies this
      ensures Valid()
      ensures State() == old(State()).(photos := old(photos)[id := photo],
                                       store := Some(StoryRecord(old(stories), old(photos)[id := photo], now)))
    {
      photos := photos[id := photo];
      store := Some(StoryRecord(stories, photos, now));
    }

    /** The section observer's callback: every intersecting entry's id joins the set;
        nothing is ever removed. */
    method OnSectionsIntersect(entries: seq<Entry>)
      requires Valid()
      modifies this
      ensures Valid()
      ensures old(visibleSections) <= visibleSections
      ensures State() == old(State()).(visibleSections := old(visibleSections) + IntersectingIds(entries))
    {
      var i := 0;
      while i < |entries|
        invariant 0 <= i <= |entries|
        invariant visibleSections == old(visibleSections) + IntersectingIds(entries[..i])
        invariant State() == old(State()).(visibleSections := visibleSections)
      {
        if entries[i].isIntersecting {
          visibleSections := visibleSections + {entries[i].id};
        }
        assert entries[..i + 1] == entries[..i] + [entries[i]];
        i := i + 1;
      }
      assert entries[..i] == entries;
    }

    /** The transition observer's callback: the transition shows, and a recap start is
        scheduled for each report (the observer keeps observing). */
    method OnTransitionIntersect(isIntersecting: bool)
      requires Valid()
      modifies this
      ensures Valid()
      ensures State() == if isIntersecting
                         then old(State()).(transitionVisible := true, pendingRecapStarts := old(pendingRecapStarts) + 1)
                         else old(State())
    {
      if isIntersecting {
        transitionVisible := true;
        pendingRecapStarts := pendingRecapStarts + 1;
      }
    }

    /** A scheduled recap start fires. */
    method FireRecapStart()
      requires Valid() && pendingRecapStarts > 0
      modifies this
      ensures Valid()
      ensures State() == old(State()).(showRecap := true, pendingRecapStarts := old(pendingRecapStarts) - 1)
    {
      showRecap := true;
      pendingRecapStarts := pendingRecapStarts - 1;
    }

    /** `handleRecapComplete`: the recap is done and leaves the screen. */
    method HandleRecapComplete()
      requires Valid()
      modifies this
      ensures Valid()
      ensures State() == old(State()).(recapComplete := true, showRecap := false)
    {
      recapComplete := true;
      showRecap := false;
    }

    /** The proposal observer's callback; the observer exists only once the recap has
        completed, so before that a report changes nothing. */
    method OnProposalIntersect(isIntersecting: bool)
      requires Valid()
      modifies this
      ensures Valid()
      ensures State() == if recapComplete && isIntersecting then old(State()).(proposalVisible := true)
                         else old(State())
    {
      if recapComplete && isIntersecting {
        proposalVisible := true;
      }
    }

    /** `handleContinue`, reached from the proposal, which is on screen only after the recap. */
    method HandleContinue()
      requires Valid() && recapComplete
      modifies this
      ensures Valid()
      ensures State() == old(State()).(showKeepMoment := true)
    {
      showKeepMoment := true;
    }

    /** `handleBeginAgain`, reached from the proposal: only when `confirmed` are the
        stories, the photos and the store cleared. The revealed sections, the stage flags
        and any scheduled autosaves are left as they are. */
    method HandleBeginAgain(confirmed: bool)
      requires Valid() && recapComplete
      modifies this
      ensures Valid()
      ensures State() == if confirmed then old(State()).(stories := map[], photos := map[], store := None)
                         else old(State())
    {
      if confirmed {
        stories := map[];
        photos := map[];
        store := None;
      }
    }

    /** `handleSave`, a button of the keep-the-moment stage: the current stories and
        photos are written whole, stamped `now`. */
    method HandleSave(now: string)
      requires Valid() && showKeepMoment
      modifies this
      ensures Valid()
      ensures State() == old(State()).(store := Some(StoryRecord(old(stories), old(photos), now)))
    {
      store := Some(StoryRecord(stories, photos, now));
    }

    /** What is on screen: the proposal, the keep-the-moment stage and the footer only
        after the recap has completed, and keep-the-moment only once continued. */
    function Rendered(): (s: Screen)
      reads this
      ensures s.recap <==> showRecap
      ensures s.proposal <==> recapComplete
      ensures s.footer <==> recapComplete
      ensures s.keepMoment <==> recapComplete && showKeepMoment
      ensures s.proposalVisible ==> s.proposal
      ensures Valid() ==> (s.keepMoment <==> showKeepMoment)
    {
      Screen(showRecap, recapComplete, recapComplete && proposalVisible, recapComplete && showKeepMoment, recapComplete)
    }
  }

  /** An autosave scheduled before a confirmed begin-again still fires afterwards and
      writes the cleared story back into the store. */
  method SaveScheduledBeforeBeginAgain() returns (stored: Option<StoryRecord>)
    ensures stored == Some(StoryRecord(map["today" := "still here"], map[], "later"))
  {
    var app := new App(None);
    app.HandleRecapComplete();
    app.HandleStoryChange("today", "still here");
    app.HandleBeginAgain(true);
    assert app.stories == map[] && app.store == None;
    app.FireAutosave("later");
    stored := app.store;
  }

  /** An autosave scheduled before a photo change carries the old photos, so when it
      fires it overwrites the record the photo change saved. */
  method SaveScheduledBeforePhotoChange() returns (stored: Option<StoryRecord>)
    ensures stored == Some(StoryRecord(map["today" := "words"], map[], "later"))
  {
    var app := new App(None);
    app.HandleStoryChange("today", "words");
    app.HandlePhotoChange("today", Some("data:image/png;base64,AAAA"), "now");
    assert app.store.value.photos == map["today" := Some("data:image/png;base64,AAAA")];
    app.FireAutosave("later");
    stored := app.store;
  }
}
