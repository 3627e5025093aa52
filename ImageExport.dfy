/** The two documents of the image exporter: the full-story page (`generateStoryHTML`)
    and the multi-slide story template (`exportAsStoryTemplate`). */
module ImageExport {
  import opened Catalog
  import opened Text
  import opened StoryDocument

  const Heart: string := "\U{2764}\U{FE0F}"
  const StoryHeading: string := Heart + " Our Story " + Heart
  const StoryFooter: seq<string> := ["This page remembers nothing. You do.", "Timeline of \"Us\" - Created with love"]

  /** Story text on a template slide is cut to this many characters. */
  const SlideStoryCap: nat := 180

  /** The full-story page: the same section rules as the printable document, under its
      own heading and footer; story text is never shortened. */
  function GenerateStoryHtml(data: StoryRecord, sections: seq<Section>): (doc: seq<Block>)
    ensures |doc| >= 3
    ensures doc[0] == Heading(StoryHeading) && doc[1] == DateLine(data.lastSaved)
    ensures doc[|doc| - 1] == Footer(StoryFooter)
    ensures doc[2..|doc| - 1] == SectionBlocks(sections, data.stories, data.photos)
  {
    FullStory(StoryHeading, StoryFooter, data, sections)
  }

  /** Sections with neither story nor photo leave nothing in the full-story page. */
  lemma EmptyRecordStoryHtml(data: StoryRecord, sections: seq<Section>)
    requires forall k :: 0 <= k < |sections| ==> !HasContent(data.stories, data.photos, sections[k].id)
    ensures GenerateStoryHtml(data, sections) == [Heading(StoryHeading), DateLine(data.lastSaved), Footer(StoryFooter)]
  {
    NoContentNoBlocks(sections, 0, data.stories, data.photos);
  }

  /** The full-story page shows a written story whole, however long it is. */
  lemma StoryHtmlKeepsFullText(data: StoryRecord, sections: seq<Section>, b: Block)
    requires b in GenerateStoryHtml(data, sections) && b.SectionBlock? && b.body.Written?
    ensures 1 <= b.number <= |sections|
    ensures b.body.text == StoryOf(data.stories, sections[b.number - 1].id)
  {
    BlockOfFullStory(b, StoryHeading, StoryFooter, data, sections);
    WrittenBlockText(b, sections, data.stories, data.photos);
  }

  /** The sections that become slides: those whose photo is truthy, in catalog order. */
  function SectionsWithPhotos(sections: seq<Section>, photos: Photos): (r: seq<Section>)
    ensures |r| <= |sections|
    ensures forall s :: s in r ==> s in sections && HasPhoto(photos, s.id)
    ensures forall s :: s in sections && HasPhoto(photos, s.id) ==> s in r
  {
    if sections == [] then []
    else (if HasPhoto(photos, sections[0].id) then [sections[0]] else [])
         + SectionsWithPhotos(sections[1..], photos)
  }

  /** Filtering distributes over concatenation; with the single-section case this fixes
      the result completely, in particular its order. */
  lemma {:induction false} SectionsWithPhotosAppend(a: seq<Section>, b: seq<Section>, photos: Photos)
    ensures SectionsWithPhotos(a + b, photos) == SectionsWithPhotos(a, photos) + SectionsWithPhotos(b, photos)
  {
    if a != [] {
      var head := if HasPhoto(photos, a[0].id) then [a[0]] else [];
      assert (a + b)[0] == a[0] && (a + b)[1..] == a[1..] + b;
      assert SectionsWithPhotos(a + b, photos) == head + SectionsWithPhotos(a[1..] + b, photos);
      SectionsWithPhotosAppend(a[1..], b, photos);
      assert SectionsWithPhotos(a, photos) == head + SectionsWithPhotos(a[1..], photos);
    } else {
      assert a + b == b;
    }
  }

  /** One section is kept exactly when its photo is truthy. */
  lemma SectionsWithPhotosSingle(s: Section, photos: Photos)
    ensures SectionsWithPhotos([s], photos) == if HasPhoto(photos, s.id) then [s] else []
  {
    assert [s][1..] == [];
  }

  /** One slide of the template. */
  datatype Slide = Slide(index: nat, title: string, subtitle: string, photo: string,
                         story: Option<string>, initiallyActive: bool)

  /** The template document: one progress bar per slide, the page indicator's first
      text, the slides, and the slide count its script navigates over. */
  datatype Template = Template(progressBars: nat, indicator: string, slides: seq<Slide>, totalStories: nat)

  /** The index of the first space in `s`, or `|s|` when there is none. */
  function SpaceIndex(s: string): (n: nat)
    ensures n <= |s|
  {
    if s == [] || s[0] == ' ' then 0 else 1 + SpaceIndex(s[1..])
  }

  /** A run of digits ends at the first space that follows it. */
  lemma {:induction false} SpaceAfterDigits(d: string, rest: string)
    requires IsDigits(d) && |rest| > 0 && rest[0] == ' '
    ensures SpaceIndex(d + rest) == |d|
  {
    if d != [] {
      assert (d + rest)[0] == d[0];
      assert (d + rest)[1..] == d[1..] + rest;
      SpaceAfterDigits(d[1..], rest);
    } else {
      assert d + rest == rest;
    }
  }

  /** The page indicator text "<position> of <total>". */
  function IndicatorText(position: nat, total: nat): string {
    DecimalString(position) + " of " + DecimalString(total)
  }

  /** The indicator reads back unambiguously: the position's digits run up to the first
      space, then come " of " and the total's digits. */
  lemma IndicatorTextReadsBack(position: nat, total: nat)
    ensures var r := IndicatorText(position, total);
            var n := SpaceIndex(r);
            && n + 4 <= |r|
            && r[..n] == DecimalString(position)
            && r[n..n + 4] == " of "
            && r[n + 4..] == DecimalString(total)
  {
    SpaceAfterDigits(DecimalString(position), " of " + DecimalString(total));
    assert IndicatorText(position, total) == DecimalString(position) + (" of " + DecimalString(total));
  }

  /** Different positions or totals give different indicator texts. */
  lemma IndicatorTextInjective(a: nat, t: nat, b: nat, u: nat)
    requires IndicatorText(a, t) == IndicatorText(b, u)
    ensures a == b && t == u
  {
    IndicatorTextReadsBack(a, t);
    IndicatorTextReadsBack(b, u);
    DecimalStringInjective(a, b);
    DecimalStringInjective(t, u);
  }

  /** Slide `index` for a section with a photo: the photo, and a story box only when
      there is a story, cut to 180 characters. */
  function SlideFor(section: Section, index: nat, data: StoryRecord): (r: Slide)
    requires HasPhoto(data.photos, section.id)
    ensures r.index == index && r.title == section.title && r.subtitle == section.subtitle
    ensures Some(r.photo) == PhotoOf(data.photos, section.id)
    ensures r.story.Some? <==> StoryOf(data.stories, section.id) != ""
    ensures r.story.Some? ==>
              r.story.value == Truncate(StoryOf(data.stories, section.id), SlideStoryCap) &&
              |r.story.value| <= SlideStoryCap + |Ellipsis|
    ensures r.initiallyActive <==> index == 0
  {
    var story := StoryOf(data.stories, section.id);
    Slide(index, section.title, section.subtitle, data.photos[section.id].value,
          if story != "" then Some(Truncate(story, SlideStoryCap)) else None,
          index == 0)
  }

  /** The template, or `None` when no section has a photo (the early return). */
  function ExportAsStoryTemplate(data: StoryRecord, sections: seq<Section>): (r: Option<Template>)
    ensures r.None? <==> forall k :: 0 <= k < |sections| ==> !HasPhoto(data.photos, sections[k].id)
    ensures r.Some? ==>
              var chosen := SectionsWithPhotos(sections, data.photos);
              var t := r.value;
              && |t.slides| == |chosen| == t.totalStories == t.progressBars >= 1
              && t.indicator == IndicatorText(1, t.totalStories)
              && forall k :: 0 <= k < |t.slides| ==>
                   && t.slides[k].index == k
                   && t.slides[k].title == chosen[k].title
                   && t.slides[k].subtitle == chosen[k].subtitle
                   && PhotoOf(data.photos, chosen[k].id) == Some(t.slides[k].photo)
                   && (t.slides[k].story.Some? <==> StoryOf(data.stories, chosen[k].id) != "")
                   && (t.slides[k].story.Some? ==>
                         t.slides[k].story.value == Truncate(StoryOf(data.stories, chosen[k].id), SlideStoryCap))
                   && (t.slides[k].initiallyActive <==> k == 0)
  {
    var chosen := SectionsWithPhotos(sections, data.photos);
    NoPhotoMeansNone(sections, data.photos);
    if chosen == [] then None
    else
      assert forall k :: 0 <= k < |chosen| ==> chosen[k] in chosen;
      var slides := seq(|chosen|, k requires 0 <= k < |chosen| => SlideFor(chosen[k], k, data));
      Some(Template(|chosen|, IndicatorText(1, |chosen|), slides, |chosen|))
  }

  /** An empty selection means no section has a photo, and conversely. */
  lemma NoPhotoMeansNone(sections: seq<Section>, photos: Photos)
    ensures SectionsWithPhotos(sections, photos) == [] <==>
            forall k :: 0 <= k < |sections| ==> !HasPhoto(photos, sections[k].id)
  {
    if !forall k :: 0 <= k < |sections| ==> !HasPhoto(photos, sections[k].id) {
      var k :| 0 <= k < |sections| && HasPhoto(photos, sections[k].id);
      assert sections[k] in sections;
    }
  }
}
