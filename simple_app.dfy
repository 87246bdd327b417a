/**
 * simple_app.py: the smaller Gradio front end, whose navigation state is
 * three module globals. They are the fields of `SimpleApp`; the file system
 * is the `fileExists` predicate and the previewer is the model of
 * document_previewer.py over the parser library `lib`.
 */
module SimpleApp {
  import opened Wrappers
  import opened PyStr
  import opened Navigation
  import Previewer

  const Placeholder := "Select a sample document..."

  const SampleDocs: map<string, string> := map[
    "Sample PDF (5 pages)" := "/home/ubuntu/gradio_document_previewer/sample_docs/sample_pdf.pdf",
    "Sample DOCX (5 pages)" := "/home/ubuntu/gradio_document_previewer/sample_docs/sample_docx.docx",
    "Sample PPTX (5 slides)" := "/home/ubuntu/gradio_document_previewer/sample_docs/sample_pptx.pptx",
    "Sample Excel (5 sheets)" := "/home/ubuntu/gradio_document_previewer/sample_docs/sample_excel.xlsx"]

  /** The replies of `load_sample_document` that show no page. */
  const NoSelection := LoadReply(Reply(None, "Please select a document", ""), false, [])
  const Unreadable := LoadReply(Reply(None, "Could not read the document.", ""), false, [])

  function FileNotFound(path: string): LoadReply {
    LoadReply(Reply(None, "File not found: " + path, ""), false, [])
  }

  function LoadedText(total: nat): string {
    "Document loaded! Total pages: " + IntToString(total)
  }

  function InvalidPageText(total: nat): string {
    "Invalid page number. Please enter a number between 1 and " + IntToString(total) + "."
  }

  /** The navigation text: always "Page", whatever the format. */
  function NavText(file: string, page: int, total: int): string {
    "\U{1F4C4} " + Basename(file) + " | Page " + IntToString(page) + " of " + IntToString(total)
  }

  class SimpleApp {
    const lib: Previewer.Library
    const fileExists: string -> bool
    /** The sample documents by display name; `SampleDocs` once constructed. */
    const sampleDocs: map<string, string>
    var currentFile: Option<string>
    var currentPage: int
    var totalPages: nat

    /** The page stays between 1 and the page count, or at 1. */
    ghost predicate Valid()
      reads this
    {
      1 <= currentPage && (currentPage == 1 || currentPage <= totalPages)
    }

    constructor(lib: Previewer.Library, fileExists: string -> bool)
      ensures this.lib == lib && this.fileExists == fileExists && sampleDocs == SampleDocs
      ensures currentFile == None && currentPage == 1 && totalPages == 0
      ensures Valid()
    {
      this.lib := lib;
      this.fileExists := fileExists;
      sampleDocs := SampleDocs;
      currentFile := None;
      currentPage := 1;
      totalPages := 0;
    }

    predicate HasFile()
      reads this
    {
      currentFile.Some? && currentFile.value != ""
    }

    /** `generate_page_links`: nothing without a file or pages, else one entry per page. */
    method GeneratePageLinks() returns (links: seq<PageLink>)
      ensures links == if !HasFile() || totalPages == 0 then [] else Links(totalPages, currentPage)
    {
      if !HasFile() || totalPages == 0 {
        return [];
      }
      links := BuildLinks(totalPages, currentPage);
    }

    /**
     * `load_sample_document(sample_name)`. A name that is not a sample raises
     * a KeyError that nothing catches (`Err`). Unlike working_app.py, the
     * file is recorded only once it exists, and its format is not checked.
     */
    method LoadSampleDocument(sampleName: string) returns (r: Result<LoadReply>)
      requires Valid()
      modifies this
      ensures Valid()
      ensures sampleName == Placeholder ==>
        r == Ok(NoSelection) && unchanged(this)
      ensures sampleName != Placeholder && sampleName !in sampleDocs ==>
        r.Err? && unchanged(this)
      ensures sampleName != Placeholder && sampleName in sampleDocs && !fileExists(sampleDocs[sampleName]) ==>
        r == Ok(FileNotFound(sampleDocs[sampleName])) && unchanged(this)
      ensures sampleName != Placeholder && sampleName in sampleDocs && fileExists(sampleDocs[sampleName]) ==>
        var path := sampleDocs[sampleName];
        && currentFile == Some(path)
        && totalPages == Previewer.PageCount(lib, path) && currentPage == 1
        && (totalPages == 0 ==> r == Ok(Unreadable))
        && (totalPages > 0 ==> r == Ok(LoadReply(
              Reply(Previewer.Preview(lib, path, 1),
                    LoadedText(totalPages),
                    NavText(path, 1, totalPages)),
              true, Links(totalPages, 1))))
    {
      if sampleName == Placeholder {
        return Ok(NoSelection);
      }
      if sampleName !in sampleDocs {
        return Err("KeyError: '" + sampleName + "'");
      }
      var filePath := sampleDocs[sampleName];
      if !fileExists(filePath) {
        return Ok(FileNotFound(filePath));
      }
      currentFile := Some(filePath);
      totalPages := Previewer.GetPageCount(lib, filePath);
      currentPage := 1;
      if totalPages == 0 {
        return Ok(Unreadable);
      }
      var previewImage := Previewer.PreviewPage(lib, filePath, currentPage);
      var navInfo := NavText(filePath, currentPage, totalPages);
      var pageLinksHtml := GeneratePageLinks();
      r := Ok(LoadReply(Reply(previewImage, LoadedText(totalPages), navInfo),
                        true, pageLinksHtml));
    }

    /** `navigate_to_page(page_number)` for a page number the Go handler let through. */
    method NavigateToPage(pageNumber: int) returns (r: Reply)
      requires Valid()
      modifies this
      ensures Valid()
      ensures currentFile == old(currentFile) && totalPages == old(totalPages)
      ensures !HasFile() ==> r == Reply(None, "No document loaded.", "") && currentPage == old(currentPage)
      ensures HasFile() && !(1 <= pageNumber <= totalPages) ==>
        && r == Reply(None, InvalidPageText(totalPages), "")
        && currentPage == old(currentPage)
      ensures HasFile() && 1 <= pageNumber <= totalPages ==>
        && currentPage == pageNumber
        && r == Reply(Previewer.Preview(lib, currentFile.value, pageNumber),
                      "Navigated to page " + IntToString(pageNumber), NavText(currentFile.value, pageNumber, totalPages))
    {
      if !HasFile() {
        return Reply(None, "No document loaded.", "");
      }
      if pageNumber < 1 || pageNumber > totalPages {
        return Reply(None, InvalidPageText(totalPages), "");
      }
      currentPage := pageNumber;
      var previewImage := Previewer.PreviewPage(lib, currentFile.value, currentPage);
      var navInfo := NavText(currentFile.value, currentPage, totalPages);
      r := Reply(previewImage, "Navigated to page " + IntToString(currentPage), navInfo);
    }

    /** The Go button: an empty or zero input is refused before `navigate_to_page` is reached. */
    method Go(input: Option<int>) returns (r: Reply)
      requires Valid()
      modifies this
      ensures Valid()
      ensures input.None? || input.value == 0 ==>
        r == Reply(None, "Please enter a page number", "") && unchanged(this)
      ensures input.Some? && input.value != 0 && !HasFile() ==>
        r == Reply(None, "No document loaded.", "")
      ensures input.Some? && input.value != 0 && HasFile() && !(1 <= input.value <= totalPages) ==>
        r == Reply(None, InvalidPageText(totalPages), "")
      ensures input.Some? && input.value != 0 && HasFile() && 1 <= input.value <= totalPages ==>
        && currentPage == input.value
        && r == Reply(Previewer.Preview(lib, currentFile.value, input.value),
                      "Navigated to page " + IntToString(input.value),
                      NavText(currentFile.value, input.value, totalPages))
      ensures !(input.Some? && input.value != 0 && HasFile() && 1 <= input.value <= totalPages) ==>
        currentPage == old(currentPage)
      ensures currentFile == old(currentFile) && totalPages == old(totalPages)
    {
      if input.Some? && input.value != 0 {
        r := NavigateToPage(input.value);
      } else {
        r := Reply(None, "Please enter a page number", "");
      }
    }
  }
}
