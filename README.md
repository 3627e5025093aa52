# Timeline of "Us" — a verified model of its rules

The system is a single-page web experience. The user writes short memories for five
fixed prompts and may attach a photo to each. The page then plays a recap slideshow
and shows a proposal screen. At the end the user can save the story, or export it as
a printable full-story page or as a multi-slide "story template" page. The template
page carries its own navigation script.

This project models the parts of that system that follow precise rules, and proves
properties about them:

- **Catalog** (`Catalog.dfy`): the five-prompt catalog, and the story and photo maps
  keyed by section id. A story is "present" when the key exists and its text is
  non-empty. A photo is "present" when it is a non-empty string; an absent key,
  `null` and `""` all count as no photo, as JavaScript truthiness has it.
- **Text** (`Text.dfy`): story truncation, shared by the template (180 characters) and
  the recap (200 characters). Also the decimal text used by the page indicator,
  with a proved parse round-trip.
- **Full-story documents** (`StoryDocument.dfy`, `PdfExport.dfy`, `ImageExport.dfy`):
  the printable document (`exportToPDF`) and the full-story page
  (`generateStoryHTML`). Each is modelled as a list of abstract blocks, not as HTML.
  Both use the same section rules. A section with neither story nor photo renders
  nothing. A rendered section keeps its catalog number. Its photo appears only when
  truthy. Its story is shown in full, or replaced by "No story written yet..." when
  there is none.
- **Story template** (`ImageExport.dfy`): the slides are exactly the sections with a
  photo, in catalog order. If there are none, no document is produced. A slide shows
  a story box only when it has a story. A story longer than 180 characters is cut to
  its first 180 characters followed by `...`.
- **Template navigation** (`StoryNavigation.dfy`): the embedded script is a class.
  It has the current index, an array of per-slide `active` flags, an array of
  progress-bar class sets, the indicator text and the two arrow flags. `updateStory`
  is a pair of loops over those arrays. Next, prev, key presses and swipes move the
  index. The class invariant ties every piece of the page to the index.
- **Recap** (`Recap.dfy`): the ticker is a class. Interval periods, the 1500 ms
  completion delay and skip are explicit events. The model also covers the
  truncation, the "A moment worth remembering" line and the progress-dot styles.
- **App** (`App.dfy`): the state container is a class. The single persisted record
  is an abstract one-slot store. The 1000 ms autosaves and the 2000 ms recap start
  are queues of pending timer events.
- **Proposal** (`Proposal.dfy`): the celebration flags, the single 20-heart burst and
  the overlay click.

Behaviour of the code worth knowing:

- Each story edit schedules its own autosave 1000 ms later. The save carries the
  stories as they were when the handler ran, plus the edit. There is no debounce.
- An autosave scheduled before a confirmed begin-again still fires afterwards. It
  writes the cleared story back into the store (`App.SaveScheduledBeforeBeginAgain`).
- An autosave scheduled before a photo change carries the old photos. When it fires,
  it overwrites the record the photo change saved
  (`App.SaveScheduledBeforePhotoChange`).
- Begin-again does not reset the revealed sections, `recapComplete` or
  `showKeepMoment`. It only clears the stories, the photos and the store.
- The transition observer never stops observing. Every report that the transition
  is on screen schedules one more recap start.
- A skip does not cancel a completion that is already scheduled, so `onComplete` can
  run twice. The app's completion handler gives the same result when run twice.
- With no slides, completion is scheduled on the first tick, because the code compares
  the index with `length - 1`, which is -1.
- Truncation leaves short text unchanged, but the converse is false. A text longer
  than the cap can come back unchanged when it already ends in `...` right after the
  cap (`Text.TruncateLongFixedPoint`).

## Model

| member | source | states |
|---|---|---|
| `Catalog.StoryOf` | src/utils/exportPDF.ts:141 | the story is the stored text when the key exists and "" when it is absent; a non-empty story always comes from a stored key |
| `Catalog.NoPhotoCases` | src/utils/exportImage.ts:31 | a photo counts as absent exactly when its key is missing, it is `null`, or it is the empty string, as JavaScript truthiness has it |
| `Catalog.PhotoOf` | src/utils/exportPDF.ts:142-151 | the photo shown is the stored string exactly when it is truthy, and nothing otherwise |
| `Text.Truncate` | src/utils/exportImage.ts:542 | text of at most `cap` characters is unchanged; longer text keeps its first `cap` characters followed by `...`, so the result never exceeds `cap + 3` |
| `Text.TruncateIdempotent` | src/utils/exportImage.ts:542 | truncating already truncated text changes nothing |
| `Text.TruncateLongFixedPoint` | src/utils/exportImage.ts:542 | some text longer than the cap is returned unchanged, so "unchanged" does not imply "short" |
| `Text.DecimalString` | src/utils/exportImage.ts:587-588 | a number's decimal text is non-empty, all digits, and has no leading zero |
| `Text.ParseDecimalString` | src/utils/exportImage.ts:587-588 | reading the decimal text back gives the number |
| `Text.DecimalStringInjective` | src/utils/exportImage.ts:587-588 | different numbers have different decimal texts |
| `StoryDocument.RenderSection` | src/utils/exportPDF.ts:141-155 | a section renders nothing iff it has neither story nor photo; otherwise its number is its catalog index + 1, the photo appears iff it is truthy, and the story appears in full, or the placeholder when the story is empty |
| `StoryDocument.SectionBlocksFrom` | src/utils/exportPDF.ts:140-156 | the sections from position i on yield at most one block each |
| `StoryDocument.SectionBlocks` | src/utils/exportImage.ts:846-869 | a catalog yields one block per section with content, in strictly increasing number order, each block the rendering of the section its number names |
| `StoryDocument.BlockOfFullStory` | src/utils/exportPDF.ts:132-160 | every section block of a full-story document is one of the catalog's section blocks |
| `StoryDocument.WrittenBlockText` | src/utils/exportPDF.ts:152 | a written story in a block is the whole story of the section its number names |
| `StoryDocument.BlocksAreRenderedSections` | src/utils/exportPDF.ts:140-156 | every emitted block is the rendering of the catalog section its number names |
| `StoryDocument.SectionsWithContentAppear` | src/utils/exportPDF.ts:140-156 | every section with a story or a photo has its block in the output |
| `StoryDocument.BlockNumbersIncrease` | src/utils/exportPDF.ts:140-148 | block numbers strictly increase: catalog order, no section twice |
| `StoryDocument.NumberedIffContent` | src/utils/exportPDF.ts:144-148 | number k+1 appears iff catalog section k has content, so gaps in the numbering are possible |
| `StoryDocument.NoContentNoBlocks` | src/utils/exportPDF.ts:144 | with no section having content there are no section blocks |
| `StoryDocument.BlockCount` | src/utils/exportPDF.ts:140-156 | the number of blocks equals the number of sections with content |
| `PdfExport.ExportToPdf` | src/utils/exportPDF.ts:6-168 | the document is the heading, the date line, exactly the catalog's section blocks, and the footer; it is a pure value and involves no download |
| `PdfExport.EmptyRecordPdf` | src/utils/exportPDF.ts:131-161 | with no content, the document is just the heading, the date line and the footer |
| `ImageExport.GenerateStoryHtml` | src/utils/exportImage.ts:665-879 | the full-story page is its heading, its date line, the same section blocks, and its footer |
| `ImageExport.EmptyRecordStoryHtml` | src/utils/exportImage.ts:846-874 | with no content, the full-story page has no section blocks |
| `ImageExport.StoryHtmlKeepsFullText` | src/utils/exportImage.ts:864 | a written story on the full-story page is the section's whole story, never truncated |
| `ImageExport.SectionsWithPhotos` | src/utils/exportImage.ts:31 | the selected sections are catalog sections with a truthy photo, and every such section is selected |
| `ImageExport.SectionsWithPhotosAppend` | src/utils/exportImage.ts:31 | selection distributes over concatenation, which fixes catalog order |
| `ImageExport.SectionsWithPhotosSingle` | src/utils/exportImage.ts:31 | one section is kept iff its photo is truthy |
| `ImageExport.NoPhotoMeansNone` | src/utils/exportImage.ts:31-36 | the selection is empty iff no section has a photo |
| `ImageExport.SlideFor` | src/utils/exportImage.ts:525-553 | a slide keeps its index, its section's title, subtitle and truthy photo; it has a story box iff the story is non-empty, holding the story cut to 180 characters (at most 183 with the ellipsis); only index 0 starts active |
| `ImageExport.IndicatorTextReadsBack` | src/utils/exportImage.ts:587-588 | the text "(position) of (total)" reads back: the digits before the first space are the position, then come " of " and the total's digits |
| `ImageExport.IndicatorTextInjective` | src/utils/exportImage.ts:518 | different positions or totals give different indicator texts |
| `ImageExport.ExportAsStoryTemplate` | src/utils/exportImage.ts:26-571 | no document iff no section has a photo; otherwise one slide and one progress bar per selected section, in order. The indicator starts at "1 of N". Each slide has its section's title, subtitle and photo. A slide has a story box iff it has a story, holding the story cut to 180 characters. Only slide 0 starts active |
| `StoryNavigation.KeyCommand` | src/utils/exportImage.ts:622-625 | ArrowRight and Space go forward, ArrowLeft goes back, any other key does nothing |
| `StoryNavigation.SwipeCommand` | src/utils/exportImage.ts:628-641 | more than 50 px leftwards goes forward, more than 50 px rightwards goes back, 50 px or less does nothing |
| `StoryNavigation.NextIndex` | src/utils/exportImage.ts:607-612 | next stays in range, is a no-op at the last slide, and otherwise adds exactly one |
| `StoryNavigation.PrevIndex` | src/utils/exportImage.ts:614-619 | prev is a no-op at the first slide and otherwise subtracts exactly one |
| `StoryNavigation.NextPrevInverse` | src/utils/exportImage.ts:607-619 | away from the ends, prev undoes next and next undoes prev |
| `StoryNavigation.RunStaysInRange` | src/utils/exportImage.ts:570-641 | no sequence of key, swipe or click commands takes the index out of [0, total-1] |
| `StoryNavigation.ForwardSteps` | src/utils/exportImage.ts:607-612 | n forward steps from slide c reach min(c+n, total-1) |
| `StoryNavigation.BarClasses` | src/utils/exportImage.ts:580-584 | bar i is completed iff i < current, and active iff i = current |
| `StoryNavigation.StoryViewer.constructor` | src/utils/exportImage.ts:570-644 | the script starts at index 0 over the template's slides, and its first `updateStory` makes the page agree with the index |
| `StoryNavigation.StoryViewer.UpdateStory` | src/utils/exportImage.ts:573-605 | afterwards exactly the current slide is active, every bar has its classes, the indicator reads "(current+1) of total", the left arrow is visible iff current ≠ 0, and the right arrow is hidden iff current = total-1 |
| `StoryNavigation.StoryViewer.NextStory` | src/utils/exportImage.ts:607-612 | the index becomes `NextIndex` of the old one, and the page still agrees with it |
| `StoryNavigation.StoryViewer.PrevStory` | src/utils/exportImage.ts:614-619 | the index becomes `PrevIndex` of the old one, and the page still agrees with it |
| `StoryNavigation.StoryViewer.OnKeyDown` | src/utils/exportImage.ts:622-625 | a key press moves the index as its `KeyCommand` says |
| `StoryNavigation.StoryViewer.OnTouchStart` | src/utils/exportImage.ts:629-631 | the touch start position is recorded |
| `StoryNavigation.StoryViewer.OnTouchEnd` | src/utils/exportImage.ts:633-641 | a touch end moves the index as the `SwipeCommand` from the recorded start says |
| `Recap.Tick` | src/components/Recap.tsx:21-31 | a tick does nothing once the interval has stopped; it never runs `onComplete` or changes the skip flag; the index moves by at most one, only while the interval runs and is below the last slide, and never past the last slide; the interval stops only by scheduling completion, leaving the index as it was |
| `Recap.FireCompletion` | src/components/Recap.tsx:26 | the completion timer runs `onComplete` once when a completion is scheduled, and otherwise not at all; afterwards none is pending, and the index, skip flag and interval are unchanged |
| `Recap.CompletionTimeMs` | src/components/Recap.tsx:19-26 | completion comes at least one 3000 ms period plus the 1500 ms delay after the recap appears |
| `Recap.CatalogCompletionTime` | src/components/Recap.tsx:19-26 | with the five catalog prompts completion is scheduled on the fifth tick and not before, so `onComplete` runs 16500 ms after the recap appears |
| `Recap.Skip` | src/components/Recap.tsx:38-41 | a skip marks the recap skipped, stops the interval and runs `onComplete` once at once; the index and any scheduled completion are kept |
| `Recap.TicksFromStart` | src/components/Recap.tsx:13-31 | from a visible start with no skip, after k ticks the index is min(k, len-1). The interval runs iff k is below the stop tick (len, or 1 when there are no slides). Completion is scheduled iff k has reached the stop tick. `onComplete` has not run yet |
| `Recap.SkipFreezesTicker` | src/components/Recap.tsx:16-41 | after a skip, no later tick changes anything |
| `Recap.HiddenNeverTicks` | src/components/Recap.tsx:17 | a recap that is not visible never ticks |
| `Recap.RecapStoryText` | src/components/Recap.tsx:109 | the recap's own `slice(0, 200)` plus `...` expression is the shared truncation with cap 200 |
| `Recap.DotAt` | src/components/Recap.tsx:129-135 | dot i is current iff i = index, past iff i < index, and upcoming iff i > index |
| `Recap.RecapSlide` | src/components/Recap.tsx:45-137 | the slide shows the section's subtitle and its photo if truthy. It shows the story cut to 200 characters iff there is one. "A moment worth remembering" appears iff there is a photo but no story. There is one dot per section |
| `Recap.RecapPlayer.constructor` | src/components/Recap.tsx:13-17 | the index starts at 0, not skipped, and the interval runs iff the recap is visible |
| `Recap.RecapPlayer.OnIntervalTick` | src/components/Recap.tsx:21-31 | one tick is `Tick` of the old state, and the index never passes the last slide |
| `Recap.RecapPlayer.OnCompletionTimer` | src/components/Recap.tsx:26 | the scheduled completion runs `onComplete` once |
| `Recap.RecapPlayer.HandleSkip` | src/components/Recap.tsx:38-41 | skipping is `Skip` of the old state |
| `Recap.RecapPlayer.View` | src/components/Recap.tsx:43-50 | while not visible the recap renders nothing, otherwise the current slide |
| `App.App.constructor` | src/App.tsx:15-38 | the app starts empty with all flags off, taking the saved record's maps if there is one |
| `App.App.HandleStoryChange` | src/App.tsx:104-115 | `stories[id] := value` with every other key and flag unchanged; one more autosave is queued, holding the edited stories and the current photos |
| `App.App.FireAutosave` | src/App.tsx:107-114 | the oldest queued autosave writes its snapshot whole, with a fresh timestamp |
| `App.App.HandlePhotoChange` | src/App.tsx:117-126 | `photos[id] := photo`, which may be null, with every other key unchanged; the current stories with the new photos are saved at once |
| `App.App.OnSectionsIntersect` | src/App.tsx:43-48 | the visible set grows by exactly the intersecting ids and never shrinks |
| `App.App.OnTransitionIntersect` | src/App.tsx:62-70 | an intersecting report shows the transition and schedules one more recap start |
| `App.App.FireRecapStart` | src/App.tsx:68 | a scheduled recap start shows the recap |
| `App.App.HandleRecapComplete` | src/App.tsx:128-131 | recap completion sets `recapComplete` and hides the recap |
| `App.App.OnProposalIntersect` | src/App.tsx:83-102 | the proposal becomes visible only from a report that arrives once the recap has completed |
| `App.App.HandleContinue` | src/App.tsx:133-142 | continuing opens the keep-the-moment stage |
| `App.App.HandleBeginAgain` | src/App.tsx:144-151 | when confirmed, the stories, the photos and the store are cleared and nothing else changes; when declined, nothing changes |
| `App.App.HandleSave` | src/App.tsx:153-161 | the current stories and photos are written whole, with a fresh timestamp |
| `App.App.Rendered` | src/App.tsx:235-268 | the proposal and the footer are on screen iff the recap has completed; keep-the-moment is on screen iff the recap has completed and continue was chosen |
| `App.SaveScheduledBeforeBeginAgain` | src/App.tsx:107-114 | an autosave queued before a confirmed begin-again writes the cleared story back |
| `App.SaveScheduledBeforePhotoChange` | src/App.tsx:107-125 | an autosave queued before a photo change overwrites the saved photo with the old photos |
| `Proposal.BurstDelays` | src/components/Proposal.tsx:19-21 | the first n hearts are scheduled at delays i·200 ms |
| `Proposal.BurstShape` | src/components/Proposal.tsx:19-21 | a burst is 20 hearts from 0 ms to 3800 ms, 200 ms apart |
| `Proposal.Proposal.constructor` | src/components/Proposal.tsx:10-11 | no celebration and no hearts at the start |
| `Proposal.Proposal.HandleContinue` | src/components/Proposal.tsx:13-23 | continuing shows the celebration; the burst is scheduled on the first call only, guarded by `heartsCreated`, which is never reset |
| `Proposal.Proposal.OverlayClick` | src/components/Proposal.tsx:102-105 | clicking the overlay hides the celebration, then calls `onContinue` once |
| `Proposal.Proposal.StartOver` | src/components/Proposal.tsx:75-76 | "Start over" calls `onBeginAgain` and changes no local state |
| `Proposal.ContinueTwice` | src/components/Proposal.tsx:17-22 | continuing twice still schedules 20 hearts in all |

## Left out

- Browser I/O is not modelled: downloads (Blob, object URL, anchor click), `alert`, `window.print`, `scrollTo` and `document.createElement`. `confirm` becomes the `confirmed` argument of `HandleBeginAgain`.
- src/utils/storage.ts is not part of this model. The store is one abstract slot holding a record. A failed write (storage quota) and JSON parsing are not modelled, and neither is the timestamp `save` sets itself; the caller passes `now` instead.
- The `image/` MIME check of src/components/PhotoUpload.tsx runs before `handlePhotoChange`. `HandlePhotoChange` accepts any photo string, and reading a file into a data URL is not modelled.
- Real time is not modelled. Intervals and timeouts are explicit events. `RecapPlayer` does not model the interval restarting when the parent re-renders: its `onComplete` prop is a new function every render, which re-runs the effect.
- `createRisingHeart` is not modelled (DOM element creation, `Math.random` placement, the 6000 ms removal). The model records the heart timers scheduled, not the hearts.
- Dates are not modelled: `lastSaved` is an opaque string shown as the date line, and the slide footer's current-month date is left out. Locale formatting and filenames are left out too.
- Markup, CSS, animations and decorative emoji outside the document headings are not modelled. Text is interpolated raw, and no escaping is claimed.
- The reveal timers of src/components/TimelineSection.tsx:34 and src/components/Transition.tsx:12 are not modelled, because they are cosmetic. src/components/Hero.tsx, src/components/KeepMoment.tsx and src/components/ActionButtons.tsx are presentation only.
- `exportAsImage`, `handleExport`, `handleExportImage` and `handleExportStoryTemplate` only pass a freshly stamped record to the exporters above, then download and alert, so they are not modelled separately.
- `Text.Truncate`: lengths count Unicode scalar values, while JavaScript's `length` and `slice` count UTF-16 code units. Text outside the Basic Multilingual Plane (most emoji) is therefore cut at a different place, or not at all: 100 copies of "😍" are 200 code units, which the template cuts, but only 100 characters here. A cut that would split a surrogate pair cannot be represented, since a Dafny string cannot hold a lone surrogate. The same applies to `ImageExport.SlideFor` and `Recap.RecapStoryText`.
- `StoryViewer.OnTouchEnd`: touch coordinates are floating point in the browser; the model uses integers.
- `Recap.RecapSlide`: with no sections, the code looks up the key `undefined` in the maps. The model shows no story and no photo there instead.
- `StoryViewer`: the model tracks only the `active` class of slides, the `active`/`completed` classes of progress bars and the `visible`/`hidden` classes of the arrows. Other classes are left out.
