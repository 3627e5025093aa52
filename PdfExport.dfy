/** The printable full-story document (`exportToPDF`). It only builds the document;
    downloading it is a separate step that is not part of this model. */
module PdfExport {
  import opened Catalog
  import opened StoryDocument

  const Heart: string := "\U{2764}\U{FE0F}"
  const PdfHeading: string := Heart + " Timeline of \"Us\" " + Heart
  const PdfFooter: seq<string> := ["This page remembers nothing. You do.", "Timeline of \"Us\" - A love story"]

  /** The document: heading and date line first, footer last, and in between exactly
      the section blocks of the catalog (sections with content, catalog-numbered). */
  function ExportToPdf(data: StoryRecord, sections: seq<Section>): (doc: seq<Block>)
    ensures |doc| >= 3
    ensures doc[0] == Heading(PdfHeading) && doc[1] == DateLine(data.lastSaved)
    ensures doc[|doc| - 1] == Footer(PdfFooter)
    ensures doc[2..|doc| - 1] == SectionBlocks(sections, data.stories, data.photos)
  {
    FullStory(PdfHeading, PdfFooter, data, sections)
  }

  /** With no section having a story or a photo, the document is just the heading,
      the date line and the footer. */
  lemma EmptyRecordPdf(data: StoryRecord, sections: seq<Section>)
    requires forall k :: 0 <= k < |sections| ==> !HasContent(data.stories, data.photos, sections[k].id)
    ensures ExportToPdf(data, sections) == [Heading(PdfHeading), DateLine(data.lastSaved), Footer(PdfFooter)]
  {
    NoContentNoBlocks(sections, 0, data.stories, data.photos);
  }

}
