/**
 * The browser-side `DocumentPreviewer` class, in both of its copies:
 * static/app.js, and the one embedded in the page gradio_app.py serves. Its
 * observable state (the fields the class mutates, and the parts of the page
 * it writes: status line, document info, button states, page links) is a
 * `Viewer` value; each method of the class is a function from the old state
 * to the new one. The JavaScript libraries (PDF.js, Mammoth, JSZip, SheetJS)
 * and `fetch` are the fields of a `Loader`: what they report for a URL.
 */
module BrowserSpec {
  import opened Wrappers
  import opened PyStr
  import opened Navigation
  import DocInfo

  /** The copy of the class: static/app.js, or the page embedded in gradio_app.py. */
  datatype Variant = StaticPage | GradioPage

  /** How a promise settles: resolved, or rejected with an error message. */
  datatype Outcome = Resolved | Rejected(message: string)

  datatype Loader = Loader(
    /** `pdfjsLib.getDocument(url)`: the document's `numPages`. */
    pdfOpen: string -> Result<nat>,
    /** `pdfDoc.getPage(n)` and its rendering, on the document last opened (None: none was). */
    pdfRender: (Option<string>, int) -> Outcome,
    /** `fetch(url)` and `mammoth.convertToHtml`. */
    docxConvert: string -> Outcome,
    /** `fetch(url)` and `JSZip.loadAsync`: the names of the archive's entries. */
    zipEntries: string -> Result<seq<string>>,
    /** `fetch(url)` and `XLSX.read`: the workbook's `SheetNames`. */
    sheetNames: string -> Result<seq<string>>,
    /** `XLSX.utils.sheet_to_html` for sheet n of the workbook last read (None: none was). */
    sheetRender: (Option<string>, int) -> Outcome)

  /** The enabled state of the navigation controls; the Go button follows the page input. */
  datatype Controls = Controls(prevDisabled: bool, nextDisabled: bool, inputDisabled: bool)

  /** The document-info panel: file name, capitalised page word, current page, page count. */
  datatype NavInfo = NavInfo(fileName: string, pageType: string, page: int, total: nat)

  datatype Viewer = Viewer(
    currentDocument: Option<string>,
    currentPage: int,
    totalPages: nat,
    documentType: Option<string>,
    /** The URL of the PDF document `pdfDoc` holds. */
    pdfDoc: Option<string>,
    /** The URL of the workbook `excelWorkbook` holds. */
    workbook: Option<string>,
    pptxSlides: seq<string>,
    /** The status line, None while it still shows the page's initial text. */
    status: Option<string>,
    /** The document-info panel, None while it still shows "No document loaded". */
    info: Option<NavInfo>,
    controls: Controls,
    linksVisible: bool,
    links: seq<PageLink>)

  /** The state after the constructor, with every control disabled as the page starts. */
  const Initial := Viewer(None, 1, 0, None, None, None, [], None, None, Controls(true, true, true), false, [])

  /** `this.currentDocument !== null`. */
  predicate HasDocument(v: Viewer) {
    v.currentDocument.Some?
  }

  /** `this.currentDocument` is truthy: set, and not the empty string. */
  predicate Loaded(v: Viewer) {
    v.currentDocument.Some? && v.currentDocument.value != ""
  }

  /** The page is at least 1, and within the page count unless it is 1. */
  predicate Valid(v: Viewer) {
    1 <= v.currentPage && (v.currentPage == 1 || v.currentPage <= v.totalPages)
  }

  // ------------------------------------------------------------ strings

  /** `fileName.split('.').pop().toLowerCase()`: what follows the last dot (all of it without one), lower-cased. */
  function Extension(fileName: string): (ext: string)
    ensures |ext| <= |fileName| && ext == Lower(fileName[|fileName| - |ext|..])
    ensures forall i :: 0 <= i < |ext| ==> ext[i] != '.'
    ensures |ext| < |fileName| ==> fileName[|fileName| - |ext| - 1] == '.'
  {
    Lower(fileName[RFind(fileName, '.') + 1..])
  }

  /** A name without a dot is its own extension, lower-cased. */
  lemma NoDotExtension(fileName: string)
    requires '.' !in fileName
    ensures Extension(fileName) == Lower(fileName)
  {
  }

  /** `getPageTypeName`. */
  function PageTypeName(documentType: Option<string>): (t: string)
    ensures t == "slide" <==> documentType == Some("pptx")
    ensures t == "sheet" <==> documentType == Some("xlsx")
    ensures t == "page" <==> documentType != Some("pptx") && documentType != Some("xlsx")
  {
    match documentType
    case Some("pdf") => "page"
    case Some("docx") => "page"
    case Some("pptx") => "slide"
    case Some("xlsx") => "sheet"
    case _ => "page"
  }

  /** `t.charAt(0).toUpperCase() + t.slice(1)`. */
  function Capitalize(t: string): string {
    if t == "" then "" else [UpperChar(t[0])] + t[1..]
  }

  predicate StartsWith(s: string, prefix: string) {
    |prefix| <= |s| && s[..|prefix|] == prefix
  }

  predicate EndsWith(s: string, suffix: string) {
    |suffix| <= |s| && s[|s| - |suffix|..] == suffix
  }

  /** An archive entry that `loadPPTX` counts as a slide. */
  predicate IsSlideEntry(name: string) {
    StartsWith(name, "ppt/slides/slide") && EndsWith(name, ".xml")
  }

  /** The `filter` of the archive's entry names down to the slides, in order. */
  function SlideFiles(names: seq<string>): (slides: seq<string>)
    ensures |slides| <= |names|
    ensures forall n :: n in slides <==> n in names && IsSlideEntry(n)
    ensures multiset(slides) <= multiset(names)
    ensures forall n :: IsSlideEntry(n) ==> multiset(slides)[n] == multiset(names)[n]
  {
    if names == [] then []
    else
      assert names == [names[0]] + names[1..];
      (if IsSlideEntry(names[0]) then [names[0]] else []) + SlideFiles(names[1..])
  }

  // ------------------------------------------------------- page helpers

  /** `showError(message)`; the error panel in the viewer is not modelled. */
  function ShowError(v: Viewer, message: string): Viewer {
    v.(status := Some(ErrorText(message)))
  }

  /** The status line `showError(message)` writes. */
  function ErrorText(message: string): string {
    "Error: " + message
  }

  /** The button states `updateNavigationControls` computes. */
  function ControlsFor(v: Viewer): Controls {
    var has := HasDocument(v);
    Controls(!has || v.currentPage <= 1, !has || v.currentPage >= v.totalPages, !has)
  }

  function UpdateControls(v: Viewer): Viewer {
    v.(controls := ControlsFor(v))
  }

  /** `generatePageLinks`: hidden (its old entries kept) without a document or with at most one page. */
  function GenerateLinks(v: Viewer): Viewer {
    if !Loaded(v) || v.totalPages <= 1 then v.(linksVisible := false)
    else v.(linksVisible := true, links := Links(v.totalPages, v.currentPage))
  }

  /** `updatePageLinks`: the entry at position `i` is active exactly when `i + 1` is the page. */
  function Highlight(links: seq<PageLink>, page: int): seq<PageLink> {
    seq(|links|, i requires 0 <= i < |links| => PageLink(links[i].number, i + 1 == page))
  }

  function UpdateLinks(v: Viewer): Viewer {
    v.(links := Highlight(v.links, v.currentPage))
  }

  /** A rejection passed on by a `catch` that rethrows with `prefix` in front. */
  function Prefixed(prefix: string, o: Outcome): Outcome {
    match o
    case Resolved => Resolved
    case Rejected(m) => Rejected(prefix + m)
  }

  /**
   * What the per-type loaders leave alone: the document, its type, the
   * status line, the panels and the links; and page 1.
   */
  predicate KeepsView(before: Viewer, after: Viewer) {
    && after.currentDocument == before.currentDocument && after.documentType == before.documentType
    && after.status == before.status && after.info == before.info && after.controls == before.controls
    && after.linksVisible == before.linksVisible && after.links == before.links
    && (before.currentPage == 1 ==> after.currentPage == 1)
  }

  // ------------------------------------------------------------ renders

  function RenderPdf(env: Loader, v: Viewer, n: int): (Viewer, Outcome) {
    match env.pdfRender(v.pdfDoc, n)
    case Resolved => (v.(currentPage := n), Resolved)
    case Rejected(m) => (v, Rejected("Failed to render PDF page: " + m))
  }

  function RenderSlide(v: Viewer, n: int): Viewer {
    v.(currentPage := n)
  }

  function RenderSheet(env: Loader, v: Viewer, n: int): (Viewer, Outcome) {
    match env.sheetRender(v.workbook, n)
    case Resolved => (v.(currentPage := n), Resolved)
    case Rejected(m) => (v, Rejected("Failed to render Excel sheet: " + m))
  }

  // ------------------------------------------------------------ loaders

  function LoadPdf(env: Loader, v: Viewer, url: string): (r: (Viewer, Outcome))
    ensures KeepsView(v, r.0)
  {
    match env.pdfOpen(url)
    case Err(m) => (v, Rejected("Failed to load PDF: " + m))
    case Ok(count) =>
      var r := RenderPdf(env, v.(pdfDoc := Some(url), totalPages := count), 1);
      (r.0, Prefixed("Failed to load PDF: ", r.1))
  }

  function LoadDocx(env: Loader, v: Viewer, url: string): (r: (Viewer, Outcome))
    ensures KeepsView(v, r.0)
  {
    match env.docxConvert(url)
    case Rejected(m) => (v, Rejected("Failed to load DOCX: " + m))
    case Resolved => (v.(totalPages := 1, currentPage := 1), Resolved)
  }

  /**
   * `loadPPTX`. The static page rejects an archive without slides; the
   * embedded page counts five pages then, and also when the archive cannot
   * be read.
   */
  function LoadPptx(variant: Variant, env: Loader, v: Viewer, url: string): (r: (Viewer, Outcome))
    ensures KeepsView(v, r.0)
  {
    match env.zipEntries(url)
    case Err(m) =>
      if variant == StaticPage then (v, Rejected("Failed to load PPTX: " + m))
      else (RenderSlide(v.(totalPages := 5), 1), Resolved)
    case Ok(names) =>
      var slides := SlideFiles(names);
      if variant == StaticPage then
        var w := v.(totalPages := |slides|, pptxSlides := slides);
        if |slides| > 0 then (RenderSlide(w, 1), Resolved)
        else (w, Rejected("Failed to load PPTX: No slides found in PPTX file"))
      else
        (RenderSlide(v.(totalPages := if |slides| == 0 then 5 else |slides|, pptxSlides := slides), 1), Resolved)
  }

  /** `loadExcel`. Only the static page rejects a workbook without sheets. */
  function LoadExcel(variant: Variant, env: Loader, v: Viewer, url: string): (r: (Viewer, Outcome))
    ensures KeepsView(v, r.0)
  {
    match env.sheetNames(url)
    case Err(m) => (v, Rejected("Failed to load Excel: " + m))
    case Ok(names) =>
      var w := v.(workbook := Some(url), totalPages := |names|);
      if variant == StaticPage && |names| == 0 then (w, Rejected("Failed to load Excel: No sheets found in Excel file"))
      else
        var r := RenderSheet(env, w, 1);
        (r.0, Prefixed("Failed to load Excel: ", r.1))
  }

  predicate IsFormat(ext: string) {
    ext == "pdf" || ext == "docx" || ext == "pptx" || ext == "xlsx"
  }

  /** What a successful load shows: the info panel, the controls, the page links, the status. */
  function Finish(v: Viewer, fileName: string): (r: Viewer)
    ensures r.totalPages == v.totalPages && r.currentPage == v.currentPage
    ensures r.currentDocument == v.currentDocument && r.documentType == v.documentType
    ensures r.pdfDoc == v.pdfDoc && r.workbook == v.workbook && r.pptxSlides == v.pptxSlides
  {
    var shown := v.(info := Some(NavInfo(fileName, Capitalize(PageTypeName(v.documentType)), v.currentPage, v.totalPages)));
    GenerateLinks(UpdateControls(shown)).(status := Some("Document loaded successfully!"))
  }

  /**
   * `loadDocumentFromURL(url, fileName)`: records the document, its type and
   * page 1 first, then loads by type; an unknown type only shows an error.
   */
  function LoadFromUrl(variant: Variant, env: Loader, v: Viewer, url: string, fileName: string): (Viewer, Outcome) {
    var ext := Extension(fileName);
    LoadRecorded(variant, env, v.(currentDocument := Some(url), documentType := Some(ext), currentPage := 1), url, fileName, ext)
  }

  /** `loadDocumentFromURL` once the document, its type `ext` and page 1 are recorded in `w`. */
  function LoadRecorded(variant: Variant, env: Loader, w: Viewer, url: string, fileName: string, ext: string): (Viewer, Outcome) {
    if !IsFormat(ext) then (ShowError(w, "Unsupported file format: " + ext), Resolved)
    else
      var r := LoadByType(variant, env, w, url, ext);
      if r.1.Rejected? then r else (Finish(r.0, fileName), Resolved)
  }

  /** The `switch` of `loadDocumentFromURL` over the four known types. */
  function LoadByType(variant: Variant, env: Loader, w: Viewer, url: string, ext: string): (r: (Viewer, Outcome))
    requires IsFormat(ext)
    ensures KeepsView(w, r.0)
  {
    if ext == "pdf" then LoadPdf(env, w, url)
    else if ext == "docx" then LoadDocx(env, w, url)
    else if ext == "pptx" then LoadPptx(variant, env, w, url)
    else LoadExcel(variant, env, w, url)
  }

  /** A rejection that the caller's `catch` shows as an error. */
  function Caught(r: (Viewer, Outcome), prefix: string): Viewer {
    match r.1
    case Resolved => r.0
    case Rejected(m) => ShowError(r.0, prefix + m)
  }

  // --------------------------------------------------------- navigation

  /** What `navigateToPage(p)` does by document type, once it accepts `p`. */
  function NavRender(env: Loader, v: Viewer, p: int): (Viewer, Outcome) {
    if v.documentType == Some("pdf") then RenderPdf(env, v, p)
    else if v.documentType == Some("docx") then (v.(currentPage := 1), Resolved)
    else if v.documentType == Some("pptx") then (RenderSlide(v, p), Resolved)
    else if v.documentType == Some("xlsx") then RenderSheet(env, v, p)
    else (v, Resolved)
  }

  /** `navigateToPage(p)`. */
  function Navigate(env: Loader, v: Viewer, p: int): Viewer {
    if p < 1 || p > v.totalPages || !Loaded(v) then v
    else
      var r := NavRender(env, v, p);
      match r.1
      case Rejected(m) => ShowError(r.0, "Failed to navigate: " + m)
      case Resolved =>
        UpdateLinks(UpdateControls(r.0)).(status := Some("Navigated to " + PageTypeName(v.documentType) + " " + IntToString(p)))
  }

  /** The Go button and the Enter key: a falsy `parseInt` result (NaN, here None, or 0) is ignored. */
  function Go(env: Loader, v: Viewer, parsed: Option<int>): Viewer {
    if parsed.None? || parsed.value == 0 then v else Navigate(env, v, parsed.value)
  }

  // -------------------------------------------------------------- loads

  /** The embedded page's `docFiles`. */
  const DocFiles: map<string, string> := map[
    "Sample PDF (7 pages)" := "sample_pdf.pdf",
    "Sample DOCX (2 pages)" := "sample_docx.docx",
    "Sample PPTX (5 slides)" := "sample_pptx.pptx",
    "Sample Excel (5 sheets)" := "sample_excel.xlsx"]

  /** `docFiles[docName]`, which is `undefined` (and so prints as that) for an unknown name. */
  function DocFile(docName: string): string {
    if docName in DocFiles then DocFiles[docName] else "undefined"
  }

  function SampleUrl(docName: string): string {
    "http://localhost:5001/docs/" + DocFile(docName)
  }

  /**
   * `loadSampleDocument(docName)` as written: the static page asks the
   * server's `get_doc_info` for the path, the embedded page builds the URL;
   * both then pass the display name as the file name.
   */
  function LoadSampleAsWritten(variant: Variant, env: Loader, v: Viewer, docName: string): Viewer {
    if variant == StaticPage then
      match DocInfo.GetDocInfo(docName)
      case Failure(error, _) => ShowError(v, error)
      case Info(path, _) => Caught(LoadFromUrl(variant, env, v, path, docName), "Failed to load document: ")
    else Caught(LoadFromUrl(variant, env, v, SampleUrl(docName), docName), "Failed to load document: ")
  }

  /** `loadSampleDocument(docName)` passing the served file's name, from which the format is read. */
  function LoadSample(variant: Variant, env: Loader, v: Viewer, docName: string): Viewer {
    if variant == StaticPage then
      match DocInfo.GetDocInfo(docName)
      case Failure(error, _) => ShowError(v, error)
      case Info(path, _) => Caught(LoadFromUrl(variant, env, v, path, path), "Failed to load document: ")
    else Caught(LoadFromUrl(variant, env, v, SampleUrl(docName), DocFile(docName)), "Failed to load document: ")
  }

  /** `loadUploadedDocument(file)`, the object URL being the browser's. */
  function LoadUpload(variant: Variant, env: Loader, v: Viewer, fileName: string, objectUrl: string): Viewer {
    Caught(LoadFromUrl(variant, env, v, objectUrl, fileName), "Failed to load uploaded document: ")
  }

  // --------------------------------------------------------- properties

  /** `navigateToPage` changes nothing for a page outside 1 to the count, or without a document. */
  lemma NavigateRefused(env: Loader, v: Viewer, p: int)
    requires p < 1 || p > v.totalPages || !Loaded(v)
    ensures Navigate(env, v, p) == v
  {
  }

  /**
   * An accepted page becomes current, except that a DOCX stays on page 1,
   * a failed render shows an error and keeps the page, and an unknown type
   * keeps the page; the document, its type and its page count never change.
   */
  lemma NavigateAccepted(env: Loader, v: Viewer, p: int)
    requires 1 <= p <= v.totalPages && Loaded(v)
    ensures var r := Navigate(env, v, p);
      && r.currentDocument == v.currentDocument && r.documentType == v.documentType && r.totalPages == v.totalPages
      && (v.documentType == Some("docx") ==> r.currentPage == 1)
      && (v.documentType == Some("pptx") ==> r.currentPage == p)
      && (v.documentType == Some("pdf") ==>
            match env.pdfRender(v.pdfDoc, p)
            case Resolved => r.currentPage == p
            case Rejected(m) => r == ShowError(v, "Failed to navigate: " + ("Failed to render PDF page: " + m)))
      && (v.documentType == Some("xlsx") ==>
            match env.sheetRender(v.workbook, p)
            case Resolved => r.currentPage == p
            case Rejected(m) => r == ShowError(v, "Failed to navigate: " + ("Failed to render Excel sheet: " + m)))
      && (!(v.documentType.Some? && IsFormat(v.documentType.value)) ==> r.currentPage == v.currentPage)
  {
  }

  /** Navigation keeps the page within 1 and the page count. */
  lemma NavigateValid(env: Loader, v: Viewer, p: int)
    requires Valid(v)
    ensures Valid(Navigate(env, v, p))
  {
  }

  /** Re-highlighting a set of page links for another page gives the links generated for that page. */
  lemma HighlightLinks(total: nat, before: int, page: int)
    ensures Highlight(Links(total, before), page) == Links(total, page)
  {
    LinksNumbered(total, before);
    LinksNumbered(total, page);
  }

  /** The render step of an accepted navigation changes the page alone, and keeps it in range. */
  lemma NavRenderKeeps(env: Loader, v: Viewer, p: int)
    requires 1 <= p <= v.totalPages && Valid(v)
    ensures var r := NavRender(env, v, p);
      && r.0 == v.(currentPage := r.0.currentPage)
      && 1 <= r.0.currentPage <= v.totalPages
      && (r.1.Rejected? ==> r.0 == v)
  {
  }

  /**
   * After a navigation that renders, the buttons and the page links match
   * the new page: Previous is off on the first page, Next on the last, and
   * the links generated earlier now highlight the new page alone.
   */
  lemma NavigateRefreshes(env: Loader, v: Viewer, p: int, before: int)
    requires 1 <= p <= v.totalPages && Loaded(v) && Valid(v) && NavRender(env, v, p).1.Resolved?
    requires v.links == Links(v.totalPages, before)
    ensures var r := Navigate(env, v, p);
      && (r.controls.prevDisabled <==> r.currentPage <= 1)
      && (r.controls.nextDisabled <==> r.currentPage >= r.totalPages)
      && !r.controls.inputDisabled
      && r.links == Links(r.totalPages, r.currentPage)
      && ActiveCount(r.links) == 1
      && r.status == Some("Navigated to " + PageTypeName(v.documentType) + " " + IntToString(p))
  {
    NavRenderKeeps(env, v, p);
    var w := NavRender(env, v, p).0;
    HighlightLinks(v.totalPages, before, w.currentPage);
    ExactlyOneActive(v.totalPages, w.currentPage);
  }

  /** A disabled Previous or Next button stands for a click that would change nothing. */
  lemma DisabledButtonsDoNothing(env: Loader, v: Viewer)
    requires Valid(v)
    ensures ControlsFor(v).prevDisabled ==> Navigate(env, v, v.currentPage - 1) == v
    ensures ControlsFor(v).nextDisabled ==> Navigate(env, v, v.currentPage + 1) == v
  {
  }

  /** Go and Enter skip a NaN only: the skip for 0 is the same as navigating to page 0, which is refused. */
  lemma GoGuard(env: Loader, v: Viewer, parsed: Option<int>)
    ensures Go(env, v, parsed) == if parsed.None? then v else Navigate(env, v, parsed.value)
  {
  }

  /** Every load records the URL and the type, and restarts at page 1. */
  lemma LoadResetsPage(variant: Variant, env: Loader, v: Viewer, url: string, fileName: string)
    ensures var r := LoadFromUrl(variant, env, v, url, fileName).0;
      && r.currentDocument == Some(url) && r.documentType == Some(Extension(fileName))
      && r.currentPage == 1 && Valid(r)
  {
  }

  /** An unknown type shows an error, leaves the page count, links and controls alone, and does not reject. */
  lemma UnsupportedLoad(variant: Variant, env: Loader, v: Viewer, url: string, fileName: string)
    requires !IsFormat(Extension(fileName))
    ensures var r := LoadFromUrl(variant, env, v, url, fileName);
      && r.1 == Resolved
      && r.0.status == Some(ErrorText("Unsupported file format: " + Extension(fileName)))
      && r.0.totalPages == v.totalPages && r.0.info == v.info && r.0.controls == v.controls
      && r.0.linksVisible == v.linksVisible && r.0.links == v.links
  {
  }

  /**
   * After a load that succeeds: the status says so, the info panel shows
   * page 1 of the count, Previous is off, Next is off exactly for a single
   * page, and the links show, page 1 highlighted, exactly for several pages.
   */
  lemma LoadSucceeded(variant: Variant, env: Loader, v: Viewer, url: string, fileName: string)
    requires IsFormat(Extension(fileName)) && LoadFromUrl(variant, env, v, url, fileName).1.Resolved?
    ensures var r := LoadFromUrl(variant, env, v, url, fileName).0;
      && r.status == Some("Document loaded successfully!")
      && r.info == Some(NavInfo(fileName, Capitalize(PageTypeName(Some(Extension(fileName)))), 1, r.totalPages))
      && r.controls.prevDisabled && (r.controls.nextDisabled <==> r.totalPages <= 1) && !r.controls.inputDisabled
      && (r.linksVisible <==> r.totalPages > 1 && url != "")
      && (r.linksVisible ==> r.links == Links(r.totalPages, 1))
  {
    var ext := Extension(fileName);
    var w := v.(currentDocument := Some(url), documentType := Some(ext), currentPage := 1);
    var loaded := LoadByType(variant, env, w, url, ext);
    assert LoadFromUrl(variant, env, v, url, fileName) == (Finish(loaded.0, fileName), Resolved);
    FinishShape(loaded.0, fileName);
  }

  /** The steps after a successful load, on a viewer at page 1 holding a document. */
  lemma FinishShape(u: Viewer, fileName: string)
    requires u.currentPage == 1 && u.currentDocument.Some?
    ensures var r := Finish(u, fileName);
      && r.totalPages == u.totalPages
      && r.status == Some("Document loaded successfully!")
      && r.info == Some(NavInfo(fileName, Capitalize(PageTypeName(u.documentType)), 1, u.totalPages))
      && r.controls.prevDisabled && (r.controls.nextDisabled <==> u.totalPages <= 1) && !r.controls.inputDisabled
      && (r.linksVisible <==> u.totalPages > 1 && u.currentDocument.value != "")
      && (r.linksVisible ==> r.links == Links(u.totalPages, 1))
  {
  }

  /** A known format is loaded by its loader; a rejection is passed on, and success only adds the page furniture. */
  lemma LoadByFormat(variant: Variant, env: Loader, v: Viewer, url: string, fileName: string)
    requires IsFormat(Extension(fileName))
    ensures var w := v.(currentDocument := Some(url), documentType := Some(Extension(fileName)), currentPage := 1);
      var loaded := LoadByType(variant, env, w, url, Extension(fileName));
      var r := LoadFromUrl(variant, env, v, url, fileName);
      && r.1 == loaded.1
      && r.0.totalPages == loaded.0.totalPages && r.0.pdfDoc == loaded.0.pdfDoc && r.0.workbook == loaded.0.workbook
  {
  }

  /** A PDF has the library's page count; it fails when it cannot be opened or its first page rendered. */
  lemma PdfLoad(variant: Variant, env: Loader, v: Viewer, url: string, fileName: string)
    requires Extension(fileName) == "pdf"
    ensures var r := LoadFromUrl(variant, env, v, url, fileName);
      match env.pdfOpen(url)
      case Err(m) => r.1 == Rejected("Failed to load PDF: " + m) && r.0.totalPages == v.totalPages
      case Ok(count) =>
        && r.0.totalPages == count && r.0.pdfDoc == Some(url)
        && (r.1.Resolved? <==> env.pdfRender(Some(url), 1).Resolved?)
  {
  }

  /** A DOCX is one page; it fails only when it cannot be fetched or converted. */
  lemma DocxLoad(variant: Variant, env: Loader, v: Viewer, url: string, fileName: string)
    requires Extension(fileName) == "docx"
    ensures var r := LoadFromUrl(variant, env, v, url, fileName);
      match env.docxConvert(url)
      case Rejected(m) => r.1 == Rejected("Failed to load DOCX: " + m) && r.0.totalPages == v.totalPages
      case Resolved => r.1 == Resolved && r.0.totalPages == 1
  {
  }

  /** On the static page a presentation has as many pages as slide entries, and none is an error. */
  lemma PptxLoadStatic(env: Loader, v: Viewer, url: string, fileName: string)
    requires Extension(fileName) == "pptx"
    ensures var r := LoadFromUrl(StaticPage, env, v, url, fileName);
      match env.zipEntries(url)
      case Err(m) => r.1 == Rejected("Failed to load PPTX: " + m) && r.0.totalPages == v.totalPages
      case Ok(names) =>
        && r.0.totalPages == |SlideFiles(names)|
        && (SlideFiles(names) == [] ==> r.1 == Rejected("Failed to load PPTX: No slides found in PPTX file"))
        && (SlideFiles(names) != [] ==> r.1 == Resolved)
  {
  }

  /** On the embedded page a presentation never fails: five pages when no slide entry is found or it cannot be read. */
  lemma PptxLoadGradio(env: Loader, v: Viewer, url: string, fileName: string)
    requires Extension(fileName) == "pptx"
    ensures var r := LoadFromUrl(GradioPage, env, v, url, fileName);
      && r.1 == Resolved
      && r.0.totalPages == (match env.zipEntries(url)
                           case Err(_) => 5
                           case Ok(names) => if SlideFiles(names) == [] then 5 else |SlideFiles(names)|)
  {
  }

  /** A workbook has as many pages as sheets; only the static page refuses one without sheets. */
  lemma ExcelLoad(variant: Variant, env: Loader, v: Viewer, url: string, fileName: string)
    requires Extension(fileName) == "xlsx"
    ensures var r := LoadFromUrl(variant, env, v, url, fileName);
      match env.sheetNames(url)
      case Err(m) => r.1 == Rejected("Failed to load Excel: " + m) && r.0.totalPages == v.totalPages
      case Ok(names) =>
        && r.0.totalPages == |names| && r.0.workbook == Some(url)
        && (variant == StaticPage && names == [] ==> r.1 == Rejected("Failed to load Excel: No sheets found in Excel file"))
        && (!(variant == StaticPage && names == []) ==> (r.1.Resolved? <==> env.sheetRender(Some(url), 1).Resolved?))
  {
  }

  // ------------------------------------------------- the sample-name bug

  /** The four sample names have no dot and are longer than any format name. */
  lemma SampleNamesDotless(docName: string)
    requires docName in DocFiles
    ensures '.' !in docName && |docName| > 4
    ensures docName in DocInfo.SampleDocs
  {
  }

  /**
   * As written, a sample is loaded under its display name, which has no
   * dot: its whole lower-cased name is taken as the format, which is never
   * one of the four, so every sample shows "Unsupported file format" and the
   * page count and links stay as they were.
   */
  lemma SampleLoadUnsupported(variant: Variant, env: Loader, v: Viewer, docName: string)
    requires docName in DocFiles
    ensures var r := LoadSampleAsWritten(variant, env, v, docName);
      && r.documentType == Some(Lower(docName))
      && r.status == Some(ErrorText("Unsupported file format: " + Lower(docName)))
      && r.totalPages == v.totalPages && r.linksVisible == v.linksVisible && r.links == v.links
  {
    SampleNamesDotless(docName);
    NoDotExtension(docName);
    var url := if variant == StaticPage then DocInfo.GetDocInfo(docName).filePath else SampleUrl(docName);
    UnsupportedLoad(variant, env, v, url, docName);
    LoadResetsPage(variant, env, v, url, docName);
  }

  /** A name ending in a dot and a dotless extension has that extension, lower-cased. */
  lemma ExtensionAfterDot(stem: string, ext: string)
    requires '.' !in ext
    ensures Extension(stem + "." + ext) == Lower(ext)
  {
    var name := stem + "." + ext;
    var d := RFind(name, '.');
    assert name[|stem|] == '.';
    assert name[d + 1..] == ext;
  }

  /** A file named after a format, and the path /docs/ gives it, both have that format. */
  lemma ServedFileFormat(stem: string, ext: string)
    requires '.' !in ext && IsFormat(Lower(ext))
    ensures IsFormat(Extension(stem + "." + ext))
    ensures Extension("/docs/" + (stem + "." + ext)) == Extension(stem + "." + ext)
  {
    assert "/docs/" + (stem + "." + ext) == ("/docs/" + stem) + "." + ext;
    ExtensionAfterDot(stem, ext);
    ExtensionAfterDot("/docs/" + stem, ext);
  }

  /** Each sample's file, and the path the server gives for it, end in one of the four formats. */
  lemma SampleFileFormat(docName: string)
    requires docName in DocFiles
    ensures docName in DocInfo.SampleDocs
    ensures var file := DocInfo.SampleDocs[docName];
      && IsFormat(Extension(DocFile(docName)))
      && Extension("/docs/" + file) == Extension(DocFile(docName))
  {
    if docName == "Sample PDF (7 pages)" {
      assert DocFile(docName) == "sample_pdf" + "." + "pdf" == DocInfo.SampleDocs[docName];
      ServedFileFormat("sample_pdf", "pdf");
    } else if docName == "Sample DOCX (2 pages)" {
      assert DocFile(docName) == "sample_docx" + "." + "docx" == DocInfo.SampleDocs[docName];
      ServedFileFormat("sample_docx", "docx");
    } else if docName == "Sample PPTX (5 slides)" {
      assert DocFile(docName) == "sample_pptx" + "." + "pptx" == DocInfo.SampleDocs[docName];
      ServedFileFormat("sample_pptx", "pptx");
    } else {
      assert DocFile(docName) == "sample_excel" + "." + "xlsx" == DocInfo.SampleDocs[docName];
      ServedFileFormat("sample_excel", "xlsx");
    }
  }

  /** Loaded under the served file's name, every sample is loaded by its real format. */
  lemma SampleLoadsByFileType(variant: Variant, env: Loader, v: Viewer, docName: string)
    requires docName in DocFiles
    ensures var r := LoadSample(variant, env, v, docName);
      && r.documentType == Some(Extension(DocFile(docName)))
      && IsFormat(r.documentType.value)
      && r.currentPage == 1
  {
    SampleFileFormat(docName);
    if variant == StaticPage {
      var path := DocInfo.GetDocInfo(docName).filePath;
      LoadResetsPage(variant, env, v, path, path);
    } else {
      LoadResetsPage(variant, env, v, SampleUrl(docName), DocFile(docName));
    }
  }
}
