/** The abstract shape of the full-story documents: a heading, a date line, one block
    per section that has content, and a footer. Both full-story exporters render their
    sections with the rules below and differ only in their fixed heading and footer. */
module StoryDocument {
  import opened Catalog

  /** Shown in place of a story when a section has a photo but no text. */
  const NoStoryPlaceholder: string := "No story written yet..."

  datatype StoryBody = Written(text: string) | Placeholder

  datatype Block =
    | Heading(text: string)
    | DateLine(saved: string)
    | SectionBlock(number: nat, title: string, subtitle: string, photo: Option<string>, body: StoryBody)
    | Footer(lines: seq<string>)

  /** The text a story body displays. */
  function BodyText(b: StoryBody): string {
    match b
    case Written(t) => t
    case Placeholder => NoStoryPlaceholder
  }

  /** The block of the section at catalog position `index`, if it has anything to show.
      Its number is the catalog position plus one; the photo appears exactly when it is
      truthy; the story is shown in full, or the placeholder when there is none. */
  function RenderSection(sec: Section, index: nat, stories: Stories, photos: Photos): (r: Option<Block>)
    ensures r.None? <==> !HasContent(stories, photos, sec.id)
    ensures r.Some? ==> r.value.SectionBlock? && r.value.number == index + 1
    ensures r.Some? ==> r.value.title == sec.title && r.value.subtitle == sec.subtitle
    ensures r.Some? ==> r.value.photo == PhotoOf(photos, sec.id)
    ensures r.Some? ==> (r.value.body.Placeholder? <==> StoryOf(stories, sec.id) == "")
    ensures r.Some? ==>
              BodyText(r.value.body) == (if StoryOf(stories, sec.id) == "" then NoStoryPlaceholder else StoryOf(stories, sec.id))
  {
    var story := StoryOf(stories, sec.id);
    if story == "" && !HasPhoto(photos, sec.id) then None
    else Some(SectionBlock(index + 1, sec.title, sec.subtitle, PhotoOf(photos, sec.id),
                           if story == "" then Placeholder else Written(story)))
  }

  /** The section blocks for `sections[i..]`, in catalog order. */
  function SectionBlocksFrom(sections: seq<Section>, i: nat, stories: Stories, photos: Photos): (r: seq<Block>)
    requires i <= |sections|
    ensures |r| <= |sections| - i
    decreases |sections| - i
  {
    if i == |sections| then []
    else
      var rest := SectionBlocksFrom(sections, i + 1, stories, photos);
      match RenderSection(sections[i], i, stories, photos)
      case None => rest
      case Some(b) => [b] + rest
  }

  /** Every block is the rendering of a catalog section with content, numbered after
      its catalog position. */
  lemma {:induction false} BlocksAreRenderedSections(sections: seq<Section>, i: nat, stories: Stories, photos: Photos)
    requires i <= |sections|
    ensures forall b :: b in SectionBlocksFrom(sections, i, stories, photos) ==>
              (b.SectionBlock? && i < b.number <= |sections| &&
               RenderSection(sections[b.number - 1], b.number - 1, stories, photos) == Some(b))
    decreases |sections| - i
  {
    if i < |sections| {
      var rest := SectionBlocksFrom(sections, i + 1, stories, photos);
      BlocksAreRenderedSections(sections, i + 1, stories, photos);
      var head := RenderSection(sections[i], i, stories, photos);
      if head.Some? {
        assert SectionBlocksFrom(sections, i, stories, photos) == [head.value] + rest;
        forall b | b in [head.value] + rest
          ensures b.SectionBlock? && i < b.number <= |sections|
          ensures RenderSection(sections[b.number - 1], b.number - 1, stories, photos) == Some(b)
        {
          if b != head.value {
            assert b in rest;
          }
        }
      } else {
        assert SectionBlocksFrom(sections, i, stories, photos) == rest;
      }
    }
  }

  /** Every section with content has its block. */
  lemma {:induction false} SectionsWithContentAppear(sections: seq<Section>, i: nat, stories: Stories, photos: Photos)
    requires i <= |sections|
    ensures forall k :: i <= k < |sections| && HasContent(stories, photos, sections[k].id) ==>
              RenderSection(sections[k], k, stories, photos).value in SectionBlocksFrom(sections, i, stories, photos)
    decreases |sections| - i
  {
    if i < |sections| {
      SectionsWithContentAppear(sections, i + 1, stories, photos);
    }
  }

  predicate NumbersIncrease(r: seq<Block>) {
    forall j, k :: 0 <= j < k < |r| ==> r[j].SectionBlock? && r[k].SectionBlock? && r[j].number < r[k].number
  }

  /** Block numbers strictly increase: blocks follow catalog order and no section
      appears twice. */
  lemma {:induction false} BlockNumbersIncrease(sections: seq<Section>, i: nat, stories: Stories, photos: Photos)
    requires i <= |sections|
    ensures NumbersIncrease(SectionBlocksFrom(sections, i, stories, photos))
    decreases |sections| - i
  {
    if i < |sections| {
      var rest := SectionBlocksFrom(sections, i + 1, stories, photos);
      BlockNumbersIncrease(sections, i + 1, stories, photos);
      var head := RenderSection(sections[i], i, stories, photos);
      if head.Some? {
        assert SectionBlocksFrom(sections, i, stories, photos) == [head.value] + rest;
        BlocksAreRenderedSections(sections, i + 1, stories, photos);
        assert forall x :: x in rest ==> x.SectionBlock? && head.value.number < x.number;
        PrependIncreasing(head.value, rest);
      } else {
        assert SectionBlocksFrom(sections, i, stories, photos) == rest;
      }
    }
  }

  lemma PrependIncreasing(b: Block, rest: seq<Block>)
    requires b.SectionBlock? && NumbersIncrease(rest)
    requires forall x :: x in rest ==> x.SectionBlock? && b.number < x.number
    ensures NumbersIncrease([b] + rest)
  {
    var r := [b] + rest;
    forall j, k | 0 <= j < k < |r|
      ensures r[j].SectionBlock? && r[k].SectionBlock? && r[j].number < r[k].number
    {
      assert r[k] == rest[k - 1] && r[k] in rest;
      if j > 0 { assert r[j] == rest[j - 1]; }
    }
  }

  /** The section blocks of a whole catalog: one per section with content, in catalog
      order, each the rendering of the section its number names. */
  function SectionBlocks(sections: seq<Section>, stories: Stories, photos: Photos): (r: seq<Block>)
    ensures |r| == ContentCount(sections, 0, stories, photos)
    ensures NumbersIncrease(r)
    ensures forall b :: b in r ==>
              b.SectionBlock? && 1 <= b.number <= |sections| &&
              RenderSection(sections[b.number - 1], b.number - 1, stories, photos) == Some(b)
  {
    BlockCount(sections, 0, stories, photos);
    BlockNumbersIncrease(sections, 0, stories, photos);
    BlocksAreRenderedSections(sections, 0, stories, photos);
    SectionBlocksFrom(sections, 0, stories, photos)
  }

  /** Section number `k + 1` appears among the blocks exactly when catalog section `k`
      has content. */
  lemma NumberedIffContent(sections: seq<Section>, stories: Stories, photos: Photos, k: nat)
    requires k < |sections|
    ensures HasContent(stories, photos, sections[k].id) <==>
            exists b :: b in SectionBlocks(sections, stories, photos) && b.SectionBlock? && b.number == k + 1
  {
    var blocks := SectionBlocks(sections, stories, photos);
    if HasContent(stories, photos, sections[k].id) {
      SectionsWithContentAppear(sections, 0, stories, photos);
      var b := RenderSection(sections[k], k, stories, photos).value;
      assert b in blocks && b.SectionBlock? && b.number == k + 1;
    } else {
      BlocksAreRenderedSections(sections, 0, stories, photos);
    }
  }

  /** A full-story document: fixed heading, the record's date, the section blocks, fixed footer. */
  function FullStory(heading: string, footer: seq<string>, data: StoryRecord, sections: seq<Section>): seq<Block> {
    [Heading(heading), DateLine(data.lastSaved)] + SectionBlocks(sections, data.stories, data.photos) + [Footer(footer)]
  }

  /** A section block of a full-story document is one of its section blocks. */
  lemma BlockOfFullStory(b: Block, heading: string, footer: seq<string>, data: StoryRecord, sections: seq<Section>)
    requires b in FullStory(heading, footer, data, sections) && b.SectionBlock?
    ensures b in SectionBlocks(sections, data.stories, data.photos)
  {
    var blocks := SectionBlocks(sections, data.stories, data.photos);
    var doc := FullStory(heading, footer, data, sections);
    var i :| 0 <= i < |doc| && doc[i] == b;
    assert doc[i] == blocks[i - 2];
  }

  /** A written story in a section block is that section's whole story. */
  lemma WrittenBlockText(b: Block, sections: seq<Section>, stories: Stories, photos: Photos)
    requires b in SectionBlocks(sections, stories, photos) && b.SectionBlock? && b.body.Written?
    ensures 1 <= b.number <= |sections|
    ensures b.body.text == StoryOf(stories, sections[b.number - 1].id)
  {
    assert RenderSection(sections[b.number - 1], b.number - 1, stories, photos) == Some(b);
    assert BodyText(b.body) == b.body.text;
  }

  /** With no section having content there are no section blocks. */
  lemma {:induction false} NoContentNoBlocks(sections: seq<Section>, i: nat, stories: Stories, photos: Photos)
    requires i <= |sections|
    requires forall k :: i <= k < |sections| ==> !HasContent(stories, photos, sections[k].id)
    ensures SectionBlocksFrom(sections, i, stories, photos) == []
    decreases |sections| - i
  {
    if i < |sections| {
      NoContentNoBlocks(sections, i + 1, stories, photos);
    }
  }

  /** The number of blocks is the number of sections with content. */
  function ContentCount(sections: seq<Section>, i: nat, stories: Stories, photos: Photos): nat
    requires i <= |sections|
    decreases |sections| - i
  {
    if i == |sections| then 0
    else (if HasContent(stories, photos, sections[i].id) then 1 else 0)
         + ContentCount(sections, i + 1, stories, photos)
  }

  lemma {:induction false} BlockCount(sections: seq<Section>, i: nat, stories: Stories, photos: Photos)
    requires i <= |sections|
    ensures |SectionBlocksFrom(sections, i, stories, photos)| == ContentCount(sections, i, stories, photos)
    decreases |sections| - i
  {
    if i < |sections| {
      BlockCount(sections, i + 1, stories, photos);
    }
  }
}
