# Document previewer — a Dafny model

The Gradio PDF viewer previews PDF, DOCX, PPTX and XLSX documents one page at
a time. It has two halves.

- **The Python previewer** (document_previewer.py) counts the pages of a file
  and draws one page as an image. A DOCX page is a window of 20 paragraphs,
  wrapped and drawn as text. A PPTX slide is the text of its shapes. An XLSX
  sheet is a 20 by 6 grid of cells. Anything that raises becomes an error
  image. Two Gradio front ends sit on top of it: the `DocumentPreviewApp`
  class of working_app.py, and the module globals of simple_app.py. Both keep
  the current file, the current page and the page count.
- **The browser viewer** is the `DocumentPreviewer` JavaScript class. One copy
  is in static/app.js, served by the Flask app of app.py. The other is the
  page embedded in gradio_app.py. It reads the format from the file name,
  loads the document through PDF.js, mammoth, JSZip or SheetJS, and keeps the
  navigation buttons, the document-info panel, the quick-navigation links
  and the status line in step with the current page. app.py's
  `get_doc_info` route tells the static page where a sample is served.

The model has one module per component:

- `PyStr` holds Python's string and path semantics (`strip`, `split`,
  `os.path.splitext`, negative indexing, `str(int)`).
- `Canvas` holds images as lists of drawing commands.
- `TextWrap`, `Docx`, `Pptx`, `Xlsx` and `Previewer` model
  document_previewer.py. Each loop becomes a method, proved equal to a
  specification function. The properties are proved as lemmas about those
  functions.
- `WorkingApp` and `SimpleApp` are the two Gradio front ends, as classes
  whose fields the handlers update.
- `Navigation` holds the page links the front ends share.
- `DocInfo` is the Flask route.
- `BrowserSpec` is the JavaScript viewer as a function from state to state.
  `BrowserViewer.DocumentPreviewer` is the class itself, whose methods are
  proved to make exactly those steps. The one exception is the sample
  selector: `LoadSampleDocumentAsWritten` makes the program's step, which
  loads nothing (see Findings), while `LoadSampleDocument` and `OnSelect`
  make the corrected one.

The third-party libraries are records of functions. Each returns `Err` (or a
rejection) where the library would raise or reject: pdf2image, python-docx,
python-pptx and openpyxl in `Previewer.Library`; PDF.js, mammoth, JSZip and
SheetJS in `BrowserSpec.Loader`. The same goes for `font.getbbox` (the
`Measure` parameter) and `os.path.exists` (the `fileExists` parameter).

## Model

| member | source | states |
|---|---|---|
| Previewer.SupportedIgnoresCase | document_previewer.py:15-20 | A file is supported exactly when its lower-cased extension is one of .pdf, .docx, .pptx, .xlsx; lower-casing the path does not change the answer |
| Previewer.PageCount | document_previewer.py:22-39 | A non-zero page count implies a supported file; unsupported files and files whose parser raises count 0 |
| Previewer.GetPageCount | document_previewer.py:22-39 | The dispatch by extension, running the DOCX counting loops, returns the page count of the specification |
| Previewer.PreviewPage | document_previewer.py:41-58 | The dispatch by extension, running the per-format drawing loops, returns the preview of the specification (an error image when anything raises) |
| Previewer.PreviewIffSupported | document_previewer.py:41-58 | A page is previewed (possibly as an error image) exactly when the file's format is supported; otherwise the result is None |
| Previewer.ParseFailureShowsLoadError | document_previewer.py:45-58 | A supported file whose parser raises previews as the error image "Error loading page N" |
| Previewer.DocxPageCount | document_previewer.py:65-83 | A DOCX that opens has at least one page; one whose parser raises has none |
| Previewer.PageCountByFormat | document_previewer.py:22-34 | A file that opens has its format's count: the number of PDF images, the DOCX estimate, the number of slides, the number of sheets |
| Previewer.ParseFailureCountsZero | document_previewer.py:26-39 | A PDF, DOCX, PPTX or XLSX file whose library raises counts 0 pages, and so does an unsupported file |
| Previewer.PptxPagesAgree | document_previewer.py:85-88 | Counting and previewing agree on a presentation: pages 1 to the count show those slides, and a page past the count is a "Slide N not found" image |
| Previewer.XlsxPagesAgree | document_previewer.py:90-93 | Counting and previewing agree on a workbook: pages 1 to the count show those sheets, and a page past the count is a "Sheet N not found" image |
| Docx.PageCount | document_previewer.py:65-83 | With page-break runs the count is one more than their number; without any it is ceil(paragraphs / 20), at least 1 and capped at 5 |
| Docx.CountPages | document_previewer.py:70-83 | The loops over paragraphs and runs that count the runs holding '\f' return that page count |
| Docx.RenderPage | document_previewer.py:102-145 | The header and the paragraph loop over the page's 20-paragraph window draw the image of the specification |
| Docx.DrawBody | document_previewer.py:118-143 | The paragraph loop, which stops once the cursor passes 900, draws the body of the specification from y = 50 |
| Docx.DrawLines | document_previewer.py:137-141 | The line loop draws lines 25 apart from the cursor until the cursor passes 950 |
| Docx.ParagraphLines | document_previewer.py:133-136 | A paragraph has no lines to draw exactly when its stripped text is empty |
| Docx.RenderShape | document_previewer.py:102-145 | A page is its header, then body-font lines at x = 50, the first at y = 50, each at least 25 below the last and none below 950 |
| Docx.RenderPastEnd | document_previewer.py:120-131 | A page whose window starts past the last paragraph draws only its header |
| Docx.BlankParagraphSkipped | document_previewer.py:133-134 | A whitespace-only paragraph draws nothing and leaves the cursor where it was |
| Pptx.PreviewSlide | document_previewer.py:147-154 | Preview of page n is an error image past the last slide; otherwise slide n - 1, Python-indexed |
| Pptx.DrawSlide | document_previewer.py:168-189 | The shape loop draws the slide image of the specification |
| Pptx.ShapeText | document_previewer.py:172-173 | A shape's stripped text, when not empty, has words |
| Pptx.SlideShape | document_previewer.py:168-189 | Every draw call on a slide is a black line at x = 50, in the title or the body font, between y = 50 and y = 550, each at least 25 below the previous one |
| Pptx.FirstBlockIsTitle | document_previewer.py:176-177 | The first shape with text is drawn from y = 50 in the title font, whatever its length |
| Pptx.ShortBlockIsTitle | document_previewer.py:176-185 | A block shorter than 100 characters is drawn in the title font, its lines 40 apart |
| Pptx.LongBlockIsBody | document_previewer.py:176-185 | A block of 100 characters or more below the top position is wrapped and drawn in the body font, its lines 25 apart |
| Pptx.PreviewMissing | document_previewer.py:151-152 | Past the last slide the preview is the error image "Slide N not found" |
| Pptx.PreviewInRange | document_previewer.py:154 | Pages 1 to the slide count show those slides |
| Pptx.PreviewFromEnd | document_previewer.py:154 | Page 0 and below show slides counted from the end, as Python's negative index does |
| Pptx.PreviewOffFront | document_previewer.py:154 | A page at or below minus the slide count raises an IndexError |
| Xlsx.Truncate | document_previewer.py:233-237 | Cell text of more than 15 characters keeps its first 12 and gains "..."; shorter text is unchanged; the result never exceeds 15 |
| Xlsx.DrawSheet | document_previewer.py:212-245 | The row and column loops draw the title and then, in row-major order, each cell's border and text |
| Xlsx.DrawCell | document_previewer.py:223-243 | One pass of the column loop draws the cell's border and then its possibly truncated text |
| Xlsx.PreviewSheet | document_previewer.py:191-198 | Preview of page n is an error image past the last sheet; otherwise sheet n - 1, Python-indexed |
| Xlsx.SheetCells | document_previewer.py:221-243 | Cell (row, col) of the image occupies draw calls 1 + 2(6 row + col) and the next, after the title |
| Xlsx.CellsTile | document_previewer.py:216-227 | Each border is 150 by 30; neighbours share an edge; together they tile (20, 60) to (920, 660) |
| Xlsx.CellTextPlaced | document_previewer.py:233-243 | A cell's text is 5 right of and 8 below its border, at most 15 characters, empty for an empty cell, and bold in row 0 only |
| Xlsx.PreviewMissing | document_previewer.py:195-196 | Past the last sheet the preview is the error image "Sheet N not found" |
| Xlsx.PreviewInRange | document_previewer.py:198 | Pages 1 to the sheet count show those sheets; pages from 0 down count from the end |
| Xlsx.PreviewOffFront | document_previewer.py:198 | A page at or below minus the sheet count raises an IndexError |
| TextWrap.WrapText | document_previewer.py:247-271 | The loop over the words returns the greedy grouping of the reference definition |
| TextWrap.WrapSound | document_previewer.py:247-271 | The lines' words, concatenated, are exactly `text.split()`; no line is empty; each line fits or is a single word |
| TextWrap.WrapGreedy | document_previewer.py:253-266 | A line is closed early only when the next word would not have fitted on it, or when it is one word too wide on its own |
| TextWrap.WrapNonEmpty | document_previewer.py:249-271 | A text with at least one word wraps to at least one line |
| Canvas.ErrorImage | document_previewer.py:273-292 | An 800x600 white canvas with the message in red, centred on its measured box with Python's floor division |
| PyStr.SplitJoin | document_previewer.py:254-262 | Splitting the space-joined words of a line gives back those words |
| PyStr.Strip | document_previewer.py:133 | `strip()` is empty exactly for whitespace-only text; otherwise it is the infix starting and ending with non-whitespace, everything before and after it being whitespace |
| PyStr.Ext | document_previewer.py:19 | `splitext`'s extension is empty or a suffix starting with its only dot and holding no '/' |
| PyStr.ExtAfterDot | document_previewer.py:19 | A name with a real stem followed by "." and a dot-free, slash-free extension has exactly that extension |
| PyStr.DotfileHasNoExt | document_previewer.py:19 | A name of leading dots followed by a dot-free, slash-free word has no extension |
| PyStr.ExtLower | document_previewer.py:19 | The extension of the lower-cased path is the lower-cased extension |
| PyStr.ExtOfBasename | working_app.py:91-92 | The extension of the base name is the extension of the whole path |
| PyStr.PyIndex | document_previewer.py:154 | A Python index lands in range exactly for -n <= i < n, and then on i or i + n |
| WorkingApp.DocumentPreviewApp.constructor | working_app.py:6-18 | No file, page 1, no pages, the four sample documents |
| WorkingApp.DocumentPreviewApp.LoadDocument | working_app.py:20-54 | Each exit of `load_document`: the placeholder, an unknown name (the KeyError message), a missing file, an unsupported format, an unreadable document (count 0), and success with the first page, the message, the navigation text and the links; the file is recorded before the checks; the page stays in range |
| WorkingApp.DocumentPreviewApp.NavigateToPage | working_app.py:56-72 | Refused without a file, and for no number or one outside 1 to the page count, with the page unchanged; otherwise the page becomes current and is previewed |
| WorkingApp.DocumentPreviewApp.NavigatePrev | working_app.py:74-78 | One page back, with the reply of `navigate_to_page` (the preview, "Navigated to page N", the navigation text; "No document loaded." without a file), unless already on the first page, when the page is unchanged and the reply says so |
| WorkingApp.DocumentPreviewApp.NavigateNext | working_app.py:80-84 | One page on, with the reply of `navigate_to_page` (the preview, "Navigated to page N", the navigation text; "No document loaded." without a file), unless already on the last page, when the page is unchanged and the reply says so |
| WorkingApp.DocumentPreviewApp.NavigationInfo | working_app.py:86-103 | The navigation text is empty exactly when no file is loaded |
| WorkingApp.KindOfExt | working_app.py:94-101 | "Slide" exactly for .PPTX and "Sheet" exactly for .XLSX; "Page" otherwise |
| WorkingApp.PageKindAgrees | working_app.py:91-119 | The page word chosen from the base name's extension agrees with the one chosen from the whole path's |
| WorkingApp.DocumentPreviewApp.GeneratePageLinks | working_app.py:105-179 | No links without a file or pages; otherwise one per page, the current one highlighted |
| SimpleApp.SimpleApp.constructor | simple_app.py:9-19 | No file, page 1, no pages, the four sample documents |
| SimpleApp.SimpleApp.LoadSampleDocument | simple_app.py:21-49 | The placeholder, an unknown name (an uncaught KeyError), a missing file (nothing recorded), an unreadable document, and success with the first page and the links; the page stays in range |
| SimpleApp.SimpleApp.NavigateToPage | simple_app.py:51-66 | Refused without a file or outside 1 to the page count, with the page unchanged; otherwise the page becomes current and is previewed |
| SimpleApp.SimpleApp.Go | simple_app.py:185-189 | An empty or zero input is refused before navigation; otherwise "No document loaded." without a file, the invalid-page reply out of range, and in range the page becomes current with its preview, "Navigated to page N" and the navigation text |
| SimpleApp.SimpleApp.GeneratePageLinks | simple_app.py:68-128 | No links without a file or pages; otherwise one per page, the current one highlighted |
| Navigation.BuildLinks | working_app.py:127-176 | The loop emits entries for pages 1 to the count |
| Navigation.LinksNumbered | static/app.js:376-381 | Entry i is page i + 1, and it is highlighted exactly when that is the current page |
| Navigation.ExactlyOneActive | static/app.js:376-381 | Exactly one entry is highlighted when the current page is one of the pages, none otherwise |
| DocInfo.GetDocInfo | app.py:26-54 | An unknown name is a 404 "Document not found"; a known one is served under /docs/ with a page count of 1, 2, 5 or 7 |
| DocInfo.PdfSampleInfo | app.py:11-16 | The PDF sample is /docs/sample_pdf.pdf with 7 pages |
| DocInfo.DocxSampleInfo | app.py:11-16 | The DOCX sample is /docs/sample_docx.docx with 2 pages |
| DocInfo.PptxSampleInfo | app.py:11-16 | The PPTX sample is /docs/sample_pptx.pptx with 5 pages |
| DocInfo.ExcelSampleInfo | app.py:11-16 | The Excel sample is /docs/sample_excel.xlsx with 5 pages |
| BrowserSpec.Extension | static/app.js:110 | `split('.').pop().toLowerCase()`: the lower-cased text after the last dot (the whole name without one), holding no dot |
| BrowserSpec.PageTypeName | static/app.js:323-335 | "slide" exactly for pptx, "sheet" exactly for xlsx, "page" otherwise |
| BrowserSpec.SlideFiles | static/app.js:211-213 | The slide entries are exactly the archive entries named ppt/slides/slide*.xml, each with its multiplicity, so the slide count is the number of such entries |
| BrowserSpec.Finish | static/app.js:134-137 | The steps after a load change only the panels, the controls, the links and the status |
| BrowserSpec.NavigateRefused | static/app.js:292-295 | A page outside 1 to the count, or no document, changes nothing |
| BrowserSpec.NavigateAccepted | static/app.js:297-320 | An accepted page becomes current, except that a DOCX stays on page 1 and an unknown type keeps its page; a failed render shows "Failed to navigate" and keeps the page; document, type and count never change |
| BrowserSpec.NavigateValid | static/app.js:292-321 | Navigation keeps the page at least 1 and within the count |
| BrowserSpec.NavigateRefreshes | static/app.js:314-316 | After a navigation that renders, Previous is off exactly on page 1, Next exactly on the last; the links highlight the new page alone; the status names the page |
| BrowserSpec.HighlightLinks | static/app.js:396-406 | Re-highlighting generated links for another page gives the links generated for that page |
| BrowserSpec.DisabledButtonsDoNothing | static/app.js:346-357 | A disabled Previous or Next button stands for a click that would change nothing |
| BrowserSpec.GoGuard | static/app.js:46-61 | Go and Enter skip a NaN only: skipping 0 is the same as navigating to page 0, which is refused |
| BrowserSpec.LoadResetsPage | static/app.js:109-114 | Every load records the URL and the format and restarts at page 1 |
| BrowserSpec.UnsupportedLoad | static/app.js:129-131 | An unknown format shows "Unsupported file format" and leaves the count, panels, controls and links alone |
| BrowserSpec.LoadSucceeded | static/app.js:134-137 | After a successful load: the status says so; the info shows page 1 of the count; Previous is off; Next is off exactly for one page; links show, page 1 highlighted, exactly for several pages |
| BrowserSpec.PdfLoad | static/app.js:140-148 | A PDF has the library's page count; the load fails when it cannot be opened or its first page rendered |
| BrowserSpec.DocxLoad | static/app.js:181-199 | A DOCX is one page; the load fails only when it cannot be fetched or converted |
| BrowserSpec.PptxLoadStatic | static/app.js:201-227 | A presentation has as many pages as slide entries; none is the error "No slides found" |
| BrowserSpec.PptxLoadGradio | gradio_app.py:444-465 | On the embedded page a presentation never fails: five pages when there is no slide entry or the archive cannot be read |
| BrowserSpec.ExcelLoad | static/app.js:249-266 | A workbook has as many pages as sheets; only the static page refuses one without sheets (gradio_app.py:487-500 does not) |
| BrowserSpec.SampleLoadUnsupported | gradio_app.py:319-338 | As written, every sample is loaded under its dotless display name and shows "Unsupported file format", its count and links unchanged |
| BrowserSpec.SampleLoadsByFileType | gradio_app.py:323-333 | Loaded under the served file's name, every sample is loaded by its real format and starts at page 1 |
| BrowserSpec.SampleFileFormat | gradio_app.py:323-331 | Each sample file, and the path the server gives for it, ends in one of the four formats |
| BrowserViewer.DocumentPreviewer.constructor | static/app.js:4-15 | No document, page 1, no pages, no type, and every control disabled |
| BrowserViewer.DocumentPreviewer.LoadDocumentFromUrl | static/app.js:109-138 | The format switch and the steps after it make the step `LoadFromUrl` describes |
| BrowserViewer.DocumentPreviewer.LoadRecordedDocument | static/app.js:116-137 | Once the document, type and page are recorded: an unknown type only shows "Unsupported file format"; a rejection passes on; otherwise the finishing steps, the step `LoadRecorded` describes |
| BrowserViewer.DocumentPreviewer.LoadByExtension | static/app.js:116-128 | Each of the four types runs its own loader, the step `LoadByType` describes |
| BrowserViewer.DocumentPreviewer.FinishLoad | static/app.js:134-137 | The info panel, the controls, the links and "Document loaded successfully!", the step `Finish` describes |
| BrowserViewer.DocumentPreviewer.LoadPdf | static/app.js:140-148 | `loadPDF` with `renderPDFPage(1)` makes the step of the specification, passing rejections on with their prefixes |
| BrowserViewer.DocumentPreviewer.RenderPdfPage | static/app.js:150-179 | A rendered page becomes current; a failure rejects with "Failed to render PDF page" |
| BrowserViewer.DocumentPreviewer.LoadDocx | static/app.js:181-199 | One page, page 1, or a rejection with "Failed to load DOCX" |
| BrowserViewer.DocumentPreviewer.LoadPptx | static/app.js:201-227 | `loadPPTX` of either page makes the step of the specification |
| BrowserViewer.DocumentPreviewer.RenderPptxSlide | static/app.js:229-247 | The slide becomes current |
| BrowserViewer.DocumentPreviewer.LoadExcel | static/app.js:249-266 | `loadExcel` of either page makes the step of the specification |
| BrowserViewer.DocumentPreviewer.RenderExcelSheet | static/app.js:268-290 | A rendered sheet becomes current; a failure rejects with "Failed to render Excel sheet" |
| BrowserViewer.DocumentPreviewer.NavigateToPage | static/app.js:292-321 | The guard, the render by type, the refresh and the caught error make the step `Navigate` describes |
| BrowserViewer.DocumentPreviewer.OnPrevious | static/app.js:38-40 | Previous navigates to the page before |
| BrowserViewer.DocumentPreviewer.OnNext | static/app.js:42-44 | Next navigates to the page after |
| BrowserViewer.DocumentPreviewer.OnGo | static/app.js:46-61 | Go and Enter navigate to the parsed number unless it is NaN or 0 |
| BrowserViewer.DocumentPreviewer.GetPageTypeName | static/app.js:323-335 | `getPageTypeName` of the current type |
| BrowserViewer.DocumentPreviewer.UpdateNavigationInfo | static/app.js:337-344 | The info panel shows the file name, the capitalised page word, the page and the count; nothing else changes |
| BrowserViewer.DocumentPreviewer.UpdateNavigationControls | static/app.js:346-363 | Previous is off without a document or on page 1, Next off without a document or on the last page, the input off without a document |
| BrowserViewer.DocumentPreviewer.GeneratePageLinks | static/app.js:365-394 | Without a document or with at most one page the links are hidden; otherwise one per page, the current one active |
| BrowserViewer.DocumentPreviewer.UpdatePageLinks | static/app.js:396-406 | The loop over the existing entries marks active exactly the one at the current page's position |
| BrowserViewer.DocumentPreviewer.ShowError | static/app.js:420-429 | The status line reads "Error: " and the message |
| BrowserViewer.DocumentPreviewer.ShowStatus | static/app.js:431-434 | The status line reads the message; nothing else changes |
| BrowserViewer.DocumentPreviewer.Catch | static/app.js:87-89 | A rejection caught by the caller is shown as an error after the caller's prefix |
| BrowserViewer.DocumentPreviewer.LoadSampleDocumentAsWritten | gradio_app.py:319-338 | Loads the sample under its display name, as the program does, making the step `BrowserSpec.LoadSampleAsWritten` describes, or shows the server's error on the static page |
| BrowserViewer.DocumentPreviewer.LoadSampleDocument | gradio_app.py:319-338 | Loads the sample under its file's name (the corrected load; see Findings), or shows the server's error on the static page |
| BrowserViewer.DocumentPreviewer.LoadUploadedDocument | static/app.js:92-107 | An upload is loaded from its object URL under its own name; a rejection is shown after "Failed to load uploaded document" |
| BrowserViewer.DocumentPreviewer.OnSelect | static/app.js:24-28 | An empty choice does nothing; any other loads that sample with the corrected load |

## Left out

- Pixels, fonts and image encoding. An image is its size, background and list of drawing commands. The PDF rasteriser's images are opaque bitmaps. `font.getbbox` is a parameter.
- The file parsers (pdf2image, python-docx, python-pptx, openpyxl) and the browser libraries (PDF.js, mammoth, JSZip, SheetJS). They are functions passed in as parameters; a raised exception or a rejected promise is `Err` or `Rejected`.
- The font fallback to `ImageFont.load_default()`. The two DejaVu faces are named fonts whose metrics come from the `Measure` parameter.
- `str.lower` and `str.upper` map only ASCII letters. Python's full Unicode case mapping is not modelled.
- `str(e)` of the KeyError in working_app.py is the key in single quotes. Python's repr escaping of quotes and control characters is not modelled.
- The DOM: innerHTML, the loading spinner, the error panel and the page-input `max` and `value`. Only the state the class and its controls keep is modelled.
- The promises are awaited one after another. Two loads or navigations in flight at once are not modelled.
- `fetch` failures and JSON parsing in the static page's `loadSampleDocument`. The route's reply is `DocInfo.GetDocInfo`; a network error is not modelled.
- The click handlers on the generated page links. Each calls `navigateToPage(i)`, which is `BrowserViewer.DocumentPreviewer.NavigateToPage`.
- The HTML markup of the page links in the Gradio front ends. An entry is its page number and whether it is highlighted.
- The Gradio interface construction (`create_interface`, `create_gradio_interface`, `main`, `launch`) and the Flask `index` and `serve_doc` routes. They are layout and I/O.
- Logging with `print`, the Flask server thread started by gradio_app.py, and the CDN scripts.
- `gr.Number` delivers a float. The page number is an integer (or None), so `int(page_number)` of a fractional value is not modelled.
- templates/index.html is not part of this model. The static page's option values are taken to be the display names that `get_doc_info` accepts.
- final_gradio_app.py and test_app.py are not part of this model.
- BrowserViewer.DocumentPreviewer.OnSelect: it runs the corrected sample load, not the program's, which `LoadSampleDocumentAsWritten` models on its own.
- Previewer.PageCount: its own contract states only that a positive count means a supported file. The per-format counts are stated by Previewer.PageCountByFormat, and the zero count on a parser failure by Previewer.ParseFailureCountsZero.

## Findings

| source | as written | input that shows it | evidently intended | confidence | as-written member | corrected member |
|---|---|---|---|---|---|---|
| gradio_app.py:333 (and static/app.js:85) | `loadDocumentFromURL(url, docName)` reads the format from the sample's display name, which has no dot | Selecting "Sample PDF (7 pages)" takes the format as "sample pdf (7 pages)", shows "Unsupported file format" and loads nothing | Read the format from the served file name (`fileName`, e.g. sample_pdf.pdf), so that each sample loads by its type | not executed | BrowserSpec.LoadSampleAsWritten (BrowserSpec.SampleLoadUnsupported) | BrowserSpec.LoadSample (BrowserSpec.SampleLoadsByFileType) |
