/**
 * The `DocumentPreviewer` class of static/app.js and of the page embedded in
 * gradio_app.py, as a class whose fields are the ones the JavaScript class
 * mutates plus the parts of the page it writes. Each method is proved to
 * make the step the corresponding function of `BrowserSpec` describes; the
 * properties are proved there. Promises are awaited in order: a method that
 * may reject returns its `Outcome`.
 */
module BrowserViewer {
  import opened Wrappers
  import opened PyStr
  import opened Navigation
  import opened BrowserSpec
  import DocInfo

  class DocumentPreviewer {
    const variant: Variant
    const env: Loader
    var currentDocument: Option<string>
    var currentPage: int
    var totalPages: nat
    var documentType: Option<string>
    var pdfDoc: Option<string>
    var excelWorkbook: Option<string>
    var pptxSlides: seq<string>
    var status: Option<string>
    var info: Option<NavInfo>
    var controls: Controls
    var linksVisible: bool
    var links: seq<PageLink>

    /** The whole observable state. */
    function State(): Viewer
      reads this
    {
      Viewer(currentDocument, currentPage, totalPages, documentType, pdfDoc, excelWorkbook, pptxSlides,
             status, info, controls, linksVisible, links)
    }

    constructor(variant: Variant, env: Loader)
      ensures this.variant == variant && this.env == env
      ensures State() == Initial
    {
      this.variant := variant;
      this.env := env;
      currentDocument := None;
      currentPage := 1;
      totalPages := 0;
      documentType := None;
      pdfDoc := None;
      excelWorkbook := None;
      pptxSlides := [];
      status := None;
      info := None;
      controls := Controls(true, true, true);
      linksVisible := false;
      links := [];
    }

    // ------------------------------------------------------ page helpers

    method ShowStatus(message: string)
      modifies this
      ensures State() == old(State()).(status := Some(message))
    {
      status := Some(message);
    }

    method ShowError(message: string)
      modifies this
      ensures State() == BrowserSpec.ShowError(old(State()), message)
    {
      ShowStatus("Error: " + message);
    }

    function GetPageTypeName(): (t: string)
      reads this
      ensures t == PageTypeName(documentType)
    {
      match documentType
      case Some("pdf") => "page"
      case Some("docx") => "page"
      case Some("pptx") => "slide"
      case Some("xlsx") => "sheet"
      case _ => "page"
    }

    method UpdateNavigationInfo(fileName: string)
      modifies this
      ensures State() == old(State()).(info := Some(NavInfo(fileName, Capitalize(PageTypeName(documentType)), currentPage, totalPages)))
    {
      var pageType := GetPageTypeName();
      info := Some(NavInfo(fileName, Capitalize(pageType), currentPage, totalPages));
    }

    method UpdateNavigationControls()
      modifies this
      ensures State() == UpdateControls(old(State()))
    {
      var hasDocument := currentDocument != None;
      controls := Controls(!hasDocument || currentPage <= 1, !hasDocument || currentPage >= totalPages, !hasDocument);
    }

    method GeneratePageLinks()
      modifies this
      ensures State() == GenerateLinks(old(State()))
    {
      if currentDocument.None? || currentDocument.value == "" || totalPages <= 1 {
        linksVisible := false;
        return;
      }
      links := BuildLinks(totalPages, currentPage);
      linksVisible := true;
    }

    /** The `forEach` over the existing entries, toggling which is active. */
    method UpdatePageLinks()
      modifies this
      ensures State() == UpdateLinks(old(State()))
    {
      var updated := links;
      for index := 0 to |updated|
        invariant |updated| == |links|
        invariant forall j :: 0 <= j < index ==> updated[j] == PageLink(links[j].number, j + 1 == currentPage)
        invariant forall j :: index <= j < |updated| ==> updated[j] == links[j]
      {
        var pageNum := index + 1;
        updated := updated[index := PageLink(updated[index].number, pageNum == currentPage)];
      }
      assert forall j :: 0 <= j < |updated| ==> updated[j] == Highlight(links, currentPage)[j];
      links := updated;
    }

    // ----------------------------------------------------------- renders

    method RenderPdfPage(pageNum: int) returns (o: Outcome)
      modifies this
      ensures (State(), o) == RenderPdf(env, old(State()), pageNum)
    {
      var r := env.pdfRender(pdfDoc, pageNum);
      if r.Rejected? {
        return Rejected("Failed to render PDF page: " + r.message);
      }
      currentPage := pageNum;
      o := Resolved;
    }

    method RenderPptxSlide(slideNum: int)
      modifies this
      ensures State() == RenderSlide(old(State()), slideNum)
    {
      currentPage := slideNum;
    }

    method RenderExcelSheet(sheetNum: int) returns (o: Outcome)
      modifies this
      ensures (State(), o) == RenderSheet(env, old(State()), sheetNum)
    {
      var r := env.sheetRender(excelWorkbook, sheetNum);
      if r.Rejected? {
        return Rejected("Failed to render Excel sheet: " + r.message);
      }
      currentPage := sheetNum;
      o := Resolved;
    }

    // ----------------------------------------------------------- loaders

    method LoadPdf(url: string) returns (o: Outcome)
      modifies this
      ensures (State(), o) == BrowserSpec.LoadPdf(env, old(State()), url)
    {
      var document := env.pdfOpen(url);
      if document.Err? {
        return Rejected("Failed to load PDF: " + document.message);
      }
      pdfDoc := Some(url);
      totalPages := document.value;
      o := RenderPdfPage(1);
      if o.Rejected? {
        o := Rejected("Failed to load PDF: " + o.message);
      }
    }

    method LoadDocx(url: string) returns (o: Outcome)
      modifies this
      ensures (State(), o) == BrowserSpec.LoadDocx(env, old(State()), url)
    {
      var converted := env.docxConvert(url);
      if converted.Rejected? {
        return Rejected("Failed to load DOCX: " + converted.message);
      }
      totalPages := 1;
      currentPage := 1;
      o := Resolved;
    }

    method LoadPptx(url: string) returns (o: Outcome)
      modifies this
      ensures (State(), o) == BrowserSpec.LoadPptx(variant, env, old(State()), url)
    {
      var zip := env.zipEntries(url);
      if zip.Err? {
        if variant == StaticPage {
          return Rejected("Failed to load PPTX: " + zip.message);
        }
        totalPages := 5;
        RenderPptxSlide(1);
        return Resolved;
      }
      var slideFiles := SlideFiles(zip.value);
      if variant == StaticPage {
        totalPages := |slideFiles|;
        pptxSlides := slideFiles;
        if totalPages > 0 {
          RenderPptxSlide(1);
          return Resolved;
        }
        return Rejected("Failed to load PPTX: No slides found in PPTX file");
      }
      totalPages := if |slideFiles| == 0 then 5 else |slideFiles|;
      pptxSlides := slideFiles;
      RenderPptxSlide(1);
      o := Resolved;
    }

    method LoadExcel(url: string) returns (o: Outcome)
      modifies this
      ensures (State(), o) == BrowserSpec.LoadExcel(variant, env, old(State()), url)
    {
      var read := env.sheetNames(url);
      if read.Err? {
        return Rejected("Failed to load Excel: " + read.message);
      }
      excelWorkbook := Some(url);
      totalPages := |read.value|;
      if variant == StaticPage && totalPages == 0 {
        return Rejected("Failed to load Excel: No sheets found in Excel file");
      }
      o := RenderExcelSheet(1);
      if o.Rejected? {
        o := Rejected("Failed to load Excel: " + o.message);
      }
    }

    /** The `switch` of `loadDocumentFromURL` over the four known types. */
    method LoadByExtension(url: string, fileExtension: string) returns (o: Outcome)
      requires IsFormat(fileExtension)
      modifies this
      ensures (State(), o) == LoadByType(variant, env, old(State()), url, fileExtension)
    {
      if fileExtension == "pdf" {
        o := LoadPdf(url);
      } else if fileExtension == "docx" {
        o := LoadDocx(url);
      } else if fileExtension == "pptx" {
        o := LoadPptx(url);
      } else {
        o := LoadExcel(url);
      }
    }

    method LoadDocumentFromUrl(url: string, fileName: string) returns (o: Outcome)
      modifies this
      ensures (State(), o) == LoadFromUrl(variant, env, old(State()), url, fileName)
    {
      var fileExtension := Lower(fileName[RFind(fileName, '.') + 1..]);
      assert fileExtension == Extension(fileName);
      currentDocument := Some(url);
      documentType := Some(fileExtension);
      currentPage := 1;
      o := LoadRecordedDocument(url, fileName, fileExtension);
    }

    /** The rest of `loadDocumentFromURL`: the switch over the type and, on success, the finishing steps. */
    method LoadRecordedDocument(url: string, fileName: string, fileExtension: string) returns (o: Outcome)
      modifies this
      ensures (State(), o) == LoadRecorded(variant, env, old(State()), url, fileName, fileExtension)
    {
      if !IsFormat(fileExtension) {
        ShowError("Unsupported file format: " + fileExtension);
        return Resolved;
      }
      o := LoadByExtension(url, fileExtension);
      if o.Rejected? {
        return;
      }
      FinishLoad(fileName);
    }

    /** The steps after a load that resolved: the info panel, the controls, the links and the status. */
    method FinishLoad(fileName: string)
      modifies this
      ensures State() == Finish(old(State()), fileName)
    {
      UpdateNavigationInfo(fileName);
      UpdateNavigationControls();
      GeneratePageLinks();
      ShowStatus("Document loaded successfully!");
    }

    /** A rejection caught by the caller, shown as an error after `prefix`. */
    method Catch(o: Outcome, prefix: string)
      modifies this
      ensures State() == Caught((old(State()), o), prefix)
    {
      if o.Rejected? {
        ShowError(prefix + o.message);
      }
    }

    // -------------------------------------------------------- navigation

    method NavigateToPage(pageNum: int)
      modifies this
      ensures State() == Navigate(env, old(State()), pageNum)
    {
      if pageNum < 1 || pageNum > totalPages || currentDocument.None? || currentDocument.value == "" {
        return;
      }
      ghost var v := State();
      var o := Resolved;
      if documentType == Some("pdf") {
        o := RenderPdfPage(pageNum);
      } else if documentType == Some("docx") {
        currentPage := 1;
      } else if documentType == Some("pptx") {
        RenderPptxSlide(pageNum);
      } else if documentType == Some("xlsx") {
        o := RenderExcelSheet(pageNum);
      }
      assert (State(), o) == NavRender(env, v, pageNum);
      if o.Rejected? {
        ShowError("Failed to navigate: " + o.message);
        return;
      }
      UpdateNavigationControls();
      UpdatePageLinks();
      var pageType := GetPageTypeName();
      ShowStatus("Navigated to " + pageType + " " + IntToString(pageNum));
    }

    method OnPrevious()
      modifies this
      ensures State() == Navigate(env, old(State()), old(currentPage) - 1)
    {
      NavigateToPage(currentPage - 1);
    }

    method OnNext()
      modifies this
      ensures State() == Navigate(env, old(State()), old(currentPage) + 1)
    {
      NavigateToPage(currentPage + 1);
    }

    /** The Go button and the Enter key, with `parseInt` of the input (None for NaN). */
    method OnGo(pageNum: Option<int>)
      modifies this
      ensures State() == Go(env, old(State()), pageNum)
    {
      if pageNum.Some? && pageNum.value != 0 {
        NavigateToPage(pageNum.value);
      }
    }

    // ------------------------------------------------------------- loads

    /**
     * `loadSampleDocument(docName)` as written: the sample's display name is
     * passed on as the file name, so its format is read from that name.
     */
    method LoadSampleDocumentAsWritten(docName: string)
      modifies this
      ensures State() == LoadSampleAsWritten(variant, env, old(State()), docName)
    {
      var url;
      if variant == StaticPage {
        var docInfo := DocInfo.GetDocInfo(docName);
        if docInfo.Failure? {
          ShowError(docInfo.error);
          return;
        }
        url := docInfo.filePath;
      } else {
        var fileName := if docName in DocFiles then DocFiles[docName] else "undefined";
        url := "http://localhost:5001/docs/" + fileName;
      }
      var o := LoadDocumentFromUrl(url, docName);
      Catch(o, "Failed to load document: ");
    }

    /** `loadSampleDocument(docName)` corrected, loading the sample under its file's name. */
    method LoadSampleDocument(docName: string)
      modifies this
      ensures State() == LoadSample(variant, env, old(State()), docName)
    {
      var url, fileName;
      if variant == StaticPage {
        var docInfo := DocInfo.GetDocInfo(docName);
        if docInfo.Failure? {
          ShowError(docInfo.error);
          return;
        }
        url, fileName := docInfo.filePath, docInfo.filePath;
      } else {
        fileName := if docName in DocFiles then DocFiles[docName] else "undefined";
        url := "http://localhost:5001/docs/" + fileName;
      }
      var o := LoadDocumentFromUrl(url, fileName);
      Catch(o, "Failed to load document: ");
    }

    method LoadUploadedDocument(fileName: string, objectUrl: string)
      modifies this
      ensures State() == LoadUpload(variant, env, old(State()), fileName, objectUrl)
    {
      var o := LoadDocumentFromUrl(objectUrl, fileName);
      Catch(o, "Failed to load uploaded document: ");
    }

    /** The sample selector: an empty choice does nothing. */
    method OnSelect(docName: string)
      modifies this
      ensures docName == "" ==> State() == old(State())
      ensures docName != "" ==> State() == LoadSample(variant, env, old(State()), docName)
    {
      if docName != "" {
        LoadSampleDocument(docName);
      }
    }
  }
}
