/**
 * `get_doc_info` (app.py): the Flask route that tells the browser where a
 * sample document is served and how many pages it has. The page count is
 * not read from the file; it is chosen by which word occurs first in the
 * list PDF, DOCX, PPTX, Excel within the document's display name.
 */
module DocInfo {
  import opened PyStr

  /** The sample documents by display name, each a file name under /docs/. */
  const SampleDocs: map<string, string> := map[
    "Sample PDF (7 pages)" := "sample_pdf.pdf",
    "Sample DOCX (2 pages)" := "sample_docx.docx",
    "Sample PPTX (5 slides)" := "sample_pptx.pptx",
    "Sample Excel (5 sheets)" := "sample_excel.xlsx"]

  /** The JSON body of the reply: the served path and page count, or an error with its HTTP status. */
  datatype DocReply = Info(filePath: string, pageCount: nat) | Failure(error: string, status: nat)

  /** The hard-coded page count for a display name. */
  function PageCountFor(name: string): nat {
    if Contains(name, "PDF") then 7
    else if Contains(name, "DOCX") then 2
    else if Contains(name, "PPTX") then 5
    else if Contains(name, "Excel") then 5
    else 1
  }

  /** `get_doc_info` for the requested `doc_name`. */
  function GetDocInfo(name: string): (r: DocReply)
    ensures r.Failure? <==> name !in SampleDocs
    ensures r.Failure? ==> r == Failure("Document not found", 404)
    ensures r.Info? ==> r.filePath == "/docs/" + SampleDocs[name] && r.pageCount in {1, 2, 5, 7}
  {
    if name !in SampleDocs then Failure("Document not found", 404)
    else Info("/docs/" + SampleDocs[name], PageCountFor(name))
  }

  /** Which of the four words occur in which label. */
  lemma PdfLabelWords()
    ensures Contains("Sample PDF (7 pages)", "PDF")
  {
    assert OccursAt("Sample PDF (7 pages)", "PDF", 7);
  }

  lemma DocxLabelWords()
    ensures !Contains("Sample DOCX (2 pages)", "PDF")
    ensures Contains("Sample DOCX (2 pages)", "DOCX")
  {
    MissingCharNotContained("Sample DOCX (2 pages)", "PDF", 'P');
    assert OccursAt("Sample DOCX (2 pages)", "DOCX", 7);
  }

  lemma PptxLabelWords()
    ensures !Contains("Sample PPTX (5 slides)", "PDF")
    ensures !Contains("Sample PPTX (5 slides)", "DOCX")
    ensures Contains("Sample PPTX (5 slides)", "PPTX")
  {
    MissingCharNotContained("Sample PPTX (5 slides)", "PDF", 'D');
    MissingCharNotContained("Sample PPTX (5 slides)", "DOCX", 'D');
    assert OccursAt("Sample PPTX (5 slides)", "PPTX", 7);
  }

  lemma ExcelLabelWords()
    ensures !Contains("Sample Excel (5 sheets)", "PDF")
    ensures !Contains("Sample Excel (5 sheets)", "DOCX")
    ensures !Contains("Sample Excel (5 sheets)", "PPTX")
    ensures Contains("Sample Excel (5 sheets)", "Excel")
  {
    MissingCharNotContained("Sample Excel (5 sheets)", "PDF", 'P');
    MissingCharNotContained("Sample Excel (5 sheets)", "DOCX", 'D');
    MissingCharNotContained("Sample Excel (5 sheets)", "PPTX", 'P');
    assert OccursAt("Sample Excel (5 sheets)", "Excel", 7);
  }

  /** Each sample gets the page count its own label states, and the path of its file. */
  lemma PdfSampleInfo()
    ensures GetDocInfo("Sample PDF (7 pages)") == Info("/docs/sample_pdf.pdf", 7)
  {
    PdfLabelWords();
  }

  lemma DocxSampleInfo()
    ensures GetDocInfo("Sample DOCX (2 pages)") == Info("/docs/sample_docx.docx", 2)
  {
    DocxLabelWords();
  }

  lemma PptxSampleInfo()
    ensures GetDocInfo("Sample PPTX (5 slides)") == Info("/docs/sample_pptx.pptx", 5)
  {
    PptxLabelWords();
  }

  lemma ExcelSampleInfo()
    ensures GetDocInfo("Sample Excel (5 sheets)") == Info("/docs/sample_excel.xlsx", 5)
  {
    ExcelLabelWords();
  }
}
