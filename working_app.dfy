/**
 * `DocumentPreviewApp` (working_app.py): the page-navigation state of the
 * Gradio front end over `DocumentPreviewer`. The file system is the
 * `fileExists` predicate; the previewer is the model of document_previewer.py
 * over the parser library `lib`.
 */
module WorkingApp {
  import opened Wrappers
  import opened PyStr
  import opened Canvas
  import opened Navigation
  import Previewer

  const Placeholder := "Select a sample document..."

  /** The four sample documents offered for preview, by display name. */
  const SampleDocs: map<string, string> := map[
    "Sample PDF (7 pages)" := "/home/ubuntu/gradio_document_previewer/sample_docs/sample_pdf.pdf",
    "Sample DOCX (2 pages)" := "/home/ubuntu/gradio_document_previewer/sample_docs/sample_docx.docx",
    "Sample PPTX (5 slides)" := "/home/ubuntu/gradio_document_previewer/sample_docs/sample_pptx.pptx",
    "Sample Excel (5 sheets)" := "/home/ubuntu/gradio_document_previewer/sample_docs/sample_excel.xlsx"]

  /** The word for a page, chosen by the upper-cased extension. */
  function KindOfExt(ext: string): (k: PageKind)
    ensures k == Slide <==> ext == ".PPTX"
    ensures k == Sheet <==> ext == ".XLSX"
  {
    if ext == ".PDF" then Page
    else if ext == ".PPTX" then Slide
    else if ext == ".XLSX" then Sheet
    else Page
  }

  /** `str(e)` of the KeyError raised for a missing key. */
  function KeyErrorText(key: string): string {
    "'" + key + "'"
  }

  function InvalidPageText(total: nat): string {
    "Invalid page number. Please enter a number between 1 and " + IntToString(total) + "."
  }

  function LoadedText(total: nat): string {
    "Document loaded successfully! Total pages: " + IntToString(total)
  }

  /** The replies of `load_document` that show no page. */
  const NoSelection := LoadReply(Reply(None, "Please select a document", ""), false, [])
  const Unsupported := LoadReply(Reply(None, "Unsupported file format.", ""), false, [])
  const Unreadable := LoadReply(Reply(None, "Could not read the document.", ""), false, [])

  function FileNotFound(path: string): LoadReply {
    LoadReply(Reply(None, "File not found: " + path, ""), false, [])
  }

  function LoadFailed(key: string): LoadReply {
    LoadReply(Reply(None, "Error loading document: " + KeyErrorText(key), ""), false, [])
  }

  class DocumentPreviewApp {
    const lib: Previewer.Library
    const fileExists: string -> bool
    /** The sample documents by display name; `SampleDocs` once constructed. */
    const sampleDocs: map<string, string>
    var currentFile: Option<string>
    var currentPage: int
    var totalPages: nat

    /** The page stays between 1 and the page count, or at 1 when there are no pages. */
    ghost predicate Valid()
      reads this
    {
      1 <= currentPage && (currentPage == 1 || currentPage <= totalPages)
    }

    constructor(lib: Previewer.Library, fileExists: string -> bool)
      ensures this.lib == lib && this.fileExists == fileExists && sampleDocs == SampleDocs
      ensures currentFile == None && currentPage == 1 && totalPages == 0
      ensures Valid()
    {
      this.lib := lib;
      this.fileExists := fileExists;
      sampleDocs := SampleDocs;
      currentFile := None;
      currentPage := 1;
      totalPages := 0;
    }

    /** `if not self.current_file`: no file, or the empty path. */
    predicate HasFile()
      reads this
    {
      currentFile.Some? && currentFile.value != ""
    }

    /** The word for a page of the current file, from the extension of its base name. */
    function PageKindOf(file: string): PageKind {
      KindOfExt(Upper(Ext(Basename(file))))
    }

    /** `generate_navigation_info`. */
    function NavigationInfo(): (s: string)
      reads this
      ensures !HasFile() <==> s == ""
    {
      if !HasFile() then ""
      else
        var file := currentFile.value;
        "\U{1F4C4} " + Basename(file) + " | " + KindName(PageKindOf(file)) + " "
          + IntToString(currentPage) + " of " + IntToString(totalPages)
    }

    /** `generate_page_links`: nothing without a file or pages, else one entry per page. */
    method GeneratePageLinks() returns (links: seq<PageLink>)
      ensures links == if !HasFile() || totalPages == 0 then [] else Links(totalPages, currentPage)
    {
      if !HasFile() || totalPages == 0 {
        return [];
      }
      links := BuildLinks(totalPages, currentPage);
    }

    /** `load_document(sample_doc)`. */
    method LoadDocument(sampleDoc: string) returns (r: LoadReply)
      requires Valid()
      modifies this
      ensures Valid()
      ensures sampleDoc == Placeholder ==>
        && r == NoSelection
        && unchanged(this)
      ensures sampleDoc != Placeholder && sampleDoc !in sampleDocs ==>
        && r == LoadFailed(sampleDoc)
        && unchanged(this)
      ensures sampleDoc != Placeholder && sampleDoc in sampleDocs ==>
        var path := sampleDocs[sampleDoc];
        && currentFile == Some(path)
        && (!fileExists(path) ==>
              && r == FileNotFound(path)
              && currentPage == old(currentPage) && totalPages == old(totalPages))
        && (fileExists(path) && !Previewer.IsSupported(path) ==>
              && r == Unsupported
              && currentPage == old(currentPage) && totalPages == old(totalPages))
        && (fileExists(path) && Previewer.IsSupported(path) ==>
              && totalPages == Previewer.PageCount(lib, path) && currentPage == 1
              && (totalPages == 0 ==> r == Unreadable)
              && (totalPages > 0 ==> r == LoadReply(
                    Reply(Previewer.Preview(lib, path, 1),
                          LoadedText(totalPages),
                          NavigationInfo()),
                    true, Links(totalPages, 1))))
    {
      if sampleDoc == Placeholder {
        return NoSelection;
      }
      if sampleDoc !in sampleDocs {
        return LoadFailed(sampleDoc);
      }
      var filePath := sampleDocs[sampleDoc];
      currentFile := Some(filePath);
      if !fileExists(filePath) {
        return FileNotFound(filePath);
      }
      if !Previewer.IsSupported(filePath) {
        return Unsupported;
      }
      totalPages := Previewer.GetPageCount(lib, filePath);
      currentPage := 1;
      if totalPages == 0 {
        return Unreadable;
      }
      var previewImage := Previewer.PreviewPage(lib, filePath, currentPage);
      var navInfo := NavigationInfo();
      var pageLinks := GeneratePageLinks();
      r := LoadReply(Reply(previewImage, LoadedText(totalPages), navInfo),
                     true, pageLinks);
    }

    /**
     * `navigate_to_page(page_number)`: refused without a file, and for no
     * number or one outside 1 to the page count; otherwise the page becomes
     * current and is previewed.
     */
    method NavigateToPage(pageNumber: Option<int>) returns (r: Reply)
      requires Valid()
      modifies this
      ensures Valid()
      ensures currentFile == old(currentFile) && totalPages == old(totalPages)
      ensures !HasFile() ==> r == Reply(None, "No document loaded.", "") && currentPage == old(currentPage)
      ensures HasFile() && !(pageNumber.Some? && 1 <= pageNumber.value <= totalPages) ==>
        && r == Reply(None, InvalidPageText(totalPages), "")
        && currentPage == old(currentPage)
      ensures HasFile() && pageNumber.Some? && 1 <= pageNumber.value <= totalPages ==>
        && currentPage == pageNumber.value
        && r == Reply(Previewer.Preview(lib, currentFile.value, currentPage),
                      "Navigated to page " + IntToString(currentPage), NavigationInfo())
    {
      if !HasFile() {
        return Reply(None, "No document loaded.", "");
      }
      if pageNumber.None? || pageNumber.value < 1 || pageNumber.value > totalPages {
        return Reply(None, InvalidPageText(totalPages), "");
      }
      currentPage := pageNumber.value;
      var previewImage := Previewer.PreviewPage(lib, currentFile.value, currentPage);
      var navInfo := NavigationInfo();
      r := Reply(previewImage, "Navigated to page " + IntToString(currentPage), navInfo);
    }

    /** `navigate_prev`: one page back, unless already on the first page. */
    method NavigatePrev() returns (r: Reply)
      requires Valid()
      modifies this
      ensures Valid()
      ensures currentFile == old(currentFile) && totalPages == old(totalPages)
      ensures old(currentPage) <= 1 ==>
        r == Reply(None, "Already at the first page.", NavigationInfo()) && currentPage == old(currentPage)
      ensures old(currentPage) > 1 && HasFile() ==>
        && currentPage == old(currentPage) - 1
        && r == Reply(Previewer.Preview(lib, currentFile.value, currentPage),
                      "Navigated to page " + IntToString(currentPage), NavigationInfo())
      ensures old(currentPage) > 1 && !HasFile() ==> r == Reply(None, "No document loaded.", "")
      ensures !HasFile() ==> currentPage == old(currentPage)
    {
      if currentPage > 1 {
        r := NavigateToPage(Some(currentPage - 1));
        return;
      }
      var navInfo := NavigationInfo();
      r := Reply(None, "Already at the first page.", navInfo);
    }

    /** `navigate_next`: one page on, unless already on the last page. */
    method NavigateNext() returns (r: Reply)
      requires Valid()
      modifies this
      ensures Valid()
      ensures currentFile == old(currentFile) && totalPages == old(totalPages)
      ensures old(currentPage) >= totalPages ==>
        r == Reply(None, "Already at the last page.", NavigationInfo()) && currentPage == old(currentPage)
      ensures old(currentPage) < totalPages && HasFile() ==>
        && currentPage == old(currentPage) + 1
        && r == Reply(Previewer.Preview(lib, currentFile.value, currentPage),
                      "Navigated to page " + IntToString(currentPage), NavigationInfo())
      ensures old(currentPage) < totalPages && !HasFile() ==> r == Reply(None, "No document loaded.", "")
      ensures !HasFile() ==> currentPage == old(currentPage)
    {
      if currentPage < totalPages {
        r := NavigateToPage(Some(currentPage + 1));
        return;
      }
      var navInfo := NavigationInfo();
      r := Reply(None, "Already at the last page.", navInfo);
    }
  }

  /** Both places that choose the word for a page agree: the base name has the extension of the whole path. */
  lemma PageKindAgrees(file: string)
    ensures KindOfExt(Upper(Ext(Basename(file)))) == KindOfExt(Upper(Ext(file)))
  {
    ExtOfBasename(file);
  }
}
