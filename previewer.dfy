/**
 * `DocumentPreviewer` (document_previewer.py): format detection by file
 * extension, page counting and page preview, dispatched to the per-format
 * code. The file parsers and the PDF rasteriser are not modelled; they are
 * the fields of a `Library` record, each returning `Err` where the library
 * would raise.
 */
module Previewer {
  import opened Wrappers
  import opened PyStr
  import opened Canvas
  import Docx
  import Pptx
  import Xlsx

  datatype Library = Library(
    /** The number of images `pdf2image.convert_from_path(path)` yields. */
    pdfPageCount: string -> Result<nat>,
    /** `pdf2image.convert_from_path(path, first_page=n, last_page=n)`. */
    pdfPages: (string, int) -> Result<seq<Image>>,
    /** `Document(path).paragraphs`, each as the texts of its runs. */
    openDocx: string -> Result<seq<Docx.Paragraph>>,
    /** `Presentation(path).slides`. */
    openPptx: string -> Result<seq<Pptx.Slide>>,
    /** `openpyxl.load_workbook(path).worksheets`. */
    openXlsx: string -> Result<seq<Xlsx.Sheet>>,
    /** `font.getbbox` for the fonts the previewer loads. */
    measure: Measure)

  const SupportedFormats: seq<string> := [".pdf", ".docx", ".pptx", ".xlsx"]

  /** The extension that selects the format: that of the lower-cased path. */
  function FormatOf(path: string): string {
    Ext(Lower(path))
  }

  /** `is_supported`: the lower-cased extension is one of the four formats. */
  predicate IsSupported(path: string) {
    FormatOf(path) in SupportedFormats
  }

  /** `get_page_count`: 0 for an unsupported file or when the library raises. */
  function PageCount(lib: Library, path: string): (n: nat)
    ensures n > 0 ==> IsSupported(path) && |path| >= 4
  {
    var ext := FormatOf(path);
    if ext == ".pdf" then
      (match lib.pdfPageCount(path) case Ok(n) => n case Err(_) => 0)
    else if ext == ".docx" then
      (match lib.openDocx(path) case Ok(ps) => Docx.PageCount(ps) case Err(_) => 0)
    else if ext == ".pptx" then
      (match lib.openPptx(path) case Ok(slides) => |slides| case Err(_) => 0)
    else if ext == ".xlsx" then
      (match lib.openXlsx(path) case Ok(sheets) => |sheets| case Err(_) => 0)
    else 0
  }

  function LoadError(n: int, measure: Measure): Image {
    ErrorImage("Error loading page " + IntToString(n), measure)
  }

  /** `_preview_pdf_page`: the first image of the one-page conversion, or an error image. */
  function PdfPreview(images: seq<Image>, n: int, measure: Measure): Image {
    if images != [] then images[0] else ErrorImage("PDF page " + IntToString(n) + " not found", measure)
  }

  /** An exception raised while previewing becomes the "Error loading page" image. */
  function Caught(r: Result<Image>, n: int, measure: Measure): Image {
    match r
    case Ok(img) => img
    case Err(_) => LoadError(n, measure)
  }

  /** `preview_page`: None for an unsupported file; otherwise an image, an error image when anything raises. */
  function Preview(lib: Library, path: string, n: int): Option<Image> {
    var ext := FormatOf(path);
    var m := lib.measure;
    if ext == ".pdf" then
      Some(match lib.pdfPages(path, n) case Ok(images) => PdfPreview(images, n, m) case Err(_) => LoadError(n, m))
    else if ext == ".docx" then
      Some(match lib.openDocx(path) case Ok(ps) => Docx.Render(ps, n, m) case Err(_) => LoadError(n, m))
    else if ext == ".pptx" then
      Some(match lib.openPptx(path) case Ok(slides) => Caught(Pptx.Preview(slides, n, m), n, m) case Err(_) => LoadError(n, m))
    else if ext == ".xlsx" then
      Some(match lib.openXlsx(path) case Ok(sheets) => Caught(Xlsx.Preview(sheets, n, m), n, m) case Err(_) => LoadError(n, m))
    else None
  }

  // ------------------------------------------------------------ methods

  /** `get_page_count`, running the DOCX page-break loop. */
  method GetPageCount(lib: Library, path: string) returns (count: nat)
    ensures count == PageCount(lib, path)
  {
    var ext := Ext(Lower(path));
    count := 0;
    if ext == ".pdf" {
      var r := lib.pdfPageCount(path);
      if r.Ok? { count := r.value; }
    } else if ext == ".docx" {
      var r := lib.openDocx(path);
      if r.Ok? { count := Docx.CountPages(r.value); }
    } else if ext == ".pptx" {
      var r := lib.openPptx(path);
      if r.Ok? { count := |r.value|; }
    } else if ext == ".xlsx" {
      var r := lib.openXlsx(path);
      if r.Ok? { count := |r.value|; }
    }
  }

  /** `preview_page`, running the per-format drawing loops. */
  method PreviewPage(lib: Library, path: string, n: int) returns (img: Option<Image>)
    ensures img == Preview(lib, path, n)
  {
    var ext := Ext(Lower(path));
    var m := lib.measure;
    if ext == ".pdf" {
      var r := lib.pdfPages(path, n);
      if r.Err? {
        return Some(LoadError(n, m));
      }
      if r.value != [] {
        return Some(r.value[0]);
      }
      return Some(ErrorImage("PDF page " + IntToString(n) + " not found", m));
    } else if ext == ".docx" {
      var r := lib.openDocx(path);
      if r.Err? {
        return Some(LoadError(n, m));
      }
      var page := Docx.RenderPage(r.value, n, m);
      return Some(page);
    } else if ext == ".pptx" {
      var r := lib.openPptx(path);
      if r.Err? {
        return Some(LoadError(n, m));
      }
      var page := Pptx.PreviewSlide(r.value, n, m);
      return Some(if page.Ok? then page.value else LoadError(n, m));
    } else if ext == ".xlsx" {
      var r := lib.openXlsx(path);
      if r.Err? {
        return Some(LoadError(n, m));
      }
      var page := Xlsx.PreviewSheet(r.value, n, m);
      return Some(if page.Ok? then page.value else LoadError(n, m));
    }
    return None;
  }

  // --------------------------------------------------------- properties

  /** Format detection ignores case: it compares the lower-cased extension. */
  lemma SupportedIgnoresCase(path: string)
    ensures IsSupported(path) <==> Lower(Ext(path)) in SupportedFormats
    ensures IsSupported(Lower(path)) == IsSupported(path)
  {
    ExtLower(path);
    LowerTwice(path);
  }

  /** A file is previewed (with an image, possibly an error image) exactly when its format is supported. */
  lemma PreviewIffSupported(lib: Library, path: string, n: int)
    ensures Preview(lib, path, n).Some? <==> IsSupported(path)
  {
  }

  /** A DOCX file that opens always has a page; one that does not has none. */
  lemma DocxPageCount(lib: Library, path: string)
    requires FormatOf(path) == ".docx"
    ensures lib.openDocx(path).Ok? ==> PageCount(lib, path) >= 1
    ensures lib.openDocx(path).Err? ==> PageCount(lib, path) == 0
  {
  }

  /** A file that opens has the page count of its format: the PDF's images, the DOCX estimate, the slides, the sheets. */
  lemma PageCountByFormat(lib: Library, path: string)
    ensures FormatOf(path) == ".pdf" && lib.pdfPageCount(path).Ok? ==>
      PageCount(lib, path) == lib.pdfPageCount(path).value
    ensures FormatOf(path) == ".docx" && lib.openDocx(path).Ok? ==>
      PageCount(lib, path) == Docx.PageCount(lib.openDocx(path).value)
    ensures FormatOf(path) == ".pptx" && lib.openPptx(path).Ok? ==>
      PageCount(lib, path) == |lib.openPptx(path).value|
    ensures FormatOf(path) == ".xlsx" && lib.openXlsx(path).Ok? ==>
      PageCount(lib, path) == |lib.openXlsx(path).value|
  {
  }

  /** Counting never raises: a supported file whose parser raises has 0 pages, and so does an unsupported file. */
  lemma ParseFailureCountsZero(lib: Library, path: string)
    requires || (FormatOf(path) == ".pdf" && lib.pdfPageCount(path).Err?)
             || (FormatOf(path) == ".docx" && lib.openDocx(path).Err?)
             || (FormatOf(path) == ".pptx" && lib.openPptx(path).Err?)
             || (FormatOf(path) == ".xlsx" && lib.openXlsx(path).Err?)
             || !IsSupported(path)
    ensures PageCount(lib, path) == 0
  {
  }

  /** A supported file whose parser raises previews as "Error loading page N". */
  lemma ParseFailureShowsLoadError(lib: Library, path: string, n: int)
    requires || (FormatOf(path) == ".docx" && lib.openDocx(path).Err?)
             || (FormatOf(path) == ".pptx" && lib.openPptx(path).Err?)
             || (FormatOf(path) == ".xlsx" && lib.openXlsx(path).Err?)
             || (FormatOf(path) == ".pdf" && lib.pdfPages(path, n).Err?)
    ensures Preview(lib, path, n).Some?
    ensures IsErrorImage(Preview(lib, path, n).value, "Error loading page " + IntToString(n))
  {
  }

  /**
   * Counting and previewing agree on presentations and workbooks: every
   * page from 1 to the count shows that slide or sheet, and the page after
   * the last says it was not found.
   */
  lemma PptxPagesAgree(lib: Library, path: string, n: int)
    requires FormatOf(path) == ".pptx" && lib.openPptx(path).Ok?
    ensures 1 <= n <= PageCount(lib, path) ==>
      Preview(lib, path, n) == Some(Pptx.SlideImage(lib.openPptx(path).value[n - 1], lib.measure))
    ensures n > PageCount(lib, path) ==>
      IsErrorImage(Preview(lib, path, n).value, "Slide " + IntToString(n) + " not found")
  {
    var slides := lib.openPptx(path).value;
    if 1 <= n <= |slides| {
      Pptx.PreviewInRange(slides, n, lib.measure);
    }
    if n > |slides| {
      Pptx.PreviewMissing(slides, n, lib.measure);
    }
  }

  lemma XlsxPagesAgree(lib: Library, path: string, n: int)
    requires FormatOf(path) == ".xlsx" && lib.openXlsx(path).Ok?
    ensures 1 <= n <= PageCount(lib, path) ==>
      Preview(lib, path, n) == Some(Xlsx.SheetImage(lib.openXlsx(path).value[n - 1]))
    ensures n > PageCount(lib, path) ==>
      IsErrorImage(Preview(lib, path, n).value, "Sheet " + IntToString(n) + " not found")
  {
    var sheets := lib.openXlsx(path).value;
    if 1 <= n <= |sheets| {
      Xlsx.PreviewInRange(sheets, n, lib.measure);
    }
    if n > |sheets| {
      Xlsx.PreviewMissing(sheets, n, lib.measure);
    }
  }
}
