/** The static catalog of timeline prompts and the story data keyed by prompt id. */
module Catalog {

  datatype Option<+T> = None | Some(value: T)

  /** One prompt of the timeline; fixed at build time. */
  datatype Section = Section(id: string, title: string, subtitle: string, placeholder: string)

  /** Free text per section id. A key that is absent means "nothing written yet". */
  type Stories = map<string, string>

  /** Photo per section id. `None` is the explicit `null` left by a removed photo; an
      absent key means no photo was ever attached. A photo is an encoded-image string. */
  type Photos = map<string, Option<string>>

  /** What the app persists and hands to the exporters. */
  datatype StoryRecord = StoryRecord(stories: Stories, photos: Photos, lastSaved: string)

  /** The five prompts, in display order. */
  const Sections: seq<Section> := [
    Section("beginning", "Beginning", "Every story starts quietly.", "Write if you want to…"),
    Section("first-met", "First Met", "Some moments don't announce themselves.",
            "A normal day that didn't feel normal afterward…"),
    Section("first-laugh", "First Laugh", "Laughter makes things real.", "What made it real…"),
    Section("first-memory", "First Memory", "The ones you revisit without trying.",
            "The one you return to…"),
    Section("today", "Today", "Still here. Still choosing.", "Where you are now…")
  ]

  /** The story text the views use: the stored text, or "" when the key is absent
      (the `stories[id] || ''` idiom). */
  function StoryOf(stories: Stories, id: string): (r: string)
    ensures id in stories ==> r == stories[id]
    ensures id !in stories ==> r == ""
    ensures r != "" ==> id in stories && stories[id] == r
  {
    if id in stories then stories[id] else ""
  }

  /** A photo is present when it is a non-empty string: an absent key, `null`
      and "" are all falsy. */
  predicate HasPhoto(photos: Photos, id: string) {
    id in photos && photos[id].Some? && photos[id].value != ""
  }

  /** The three falsy photo values: no key, an explicit `null`, and the empty string. */
  lemma NoPhotoCases(photos: Photos, id: string)
    ensures !HasPhoto(photos, id) <==> (id !in photos || photos[id] == None || photos[id] == Some(""))
  {
  }

  /** The photo as the views see it: the string when it is truthy, `None` otherwise. */
  function PhotoOf(photos: Photos, id: string): (p: Option<string>)
    ensures p.Some? <==> HasPhoto(photos, id)
    ensures p.Some? ==> p.value != "" && photos[id] == p
  {
    if HasPhoto(photos, id) then photos[id] else None
  }

  /** A section has content when it has a story or a photo. */
  predicate HasContent(stories: Stories, photos: Photos, id: string) {
    StoryOf(stories, id) != "" || HasPhoto(photos, id)
  }
}
