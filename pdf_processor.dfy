/** The treatment-plan PDF pre-processor (main-app/app/services/pdf_processor.py).

    PyMuPDF is an input here: a document is its pages (the text `get_text()`
    returns and whether `get_images()` is non-empty) and its `metadata`
    dictionary, and the file system maps a path to a file that opens or to the
    exception `fitz.open` raises.  A document whose page reads raise carries
    that exception's text in `fault`. */
module PdfProcessor {
  import opened Wrappers
  import opened Text
  import opened Values

  datatype Page = Page(text: string, hasImages: bool)

  datatype Document = Document(pages: seq<Page>, metadata: map<string, string>, fault: Option<string>)

  datatype FileEntry = Openable(doc: Document) | Unopenable(error: string)

  type FileSystem = map<string, FileEntry>

  /** MIN_TEXT_LENGTH: fewer non-whitespace characters per page than this means a scan. */
  const MinTextLength: int := 50

  datatype ProcessingStatus = Success | Process | Error

  function StatusValue(s: ProcessingStatus): string {
    match s
    case Success => "success"
    case Process => "process"
    case Error => "error"
  }

  /** PDFProcessorResponse; `data or {}` is already applied, so `data` is a dictionary. */
  datatype Response = Response(status: ProcessingStatus, message: string, data: map<string, Value>)

  /** `PDFProcessorResponse.to_dict`. */
  function ToDict(r: Response): (v: Value)
    ensures v.VDict? && v.entries.Keys == {"status", "message", "data"}
    ensures v.entries["status"] == VStr(StatusValue(r.status))
    ensures v.entries["message"] == VStr(r.message)
    ensures v.entries["data"] == VDict(r.data)
  {
    VDict(map["status" := VStr(StatusValue(r.status)), "message" := VStr(r.message), "data" := VDict(r.data)])
  }

  function StatusFromValue(s: string): Option<ProcessingStatus> {
    if s == "success" then Some(Success)
    else if s == "process" then Some(Process)
    else if s == "error" then Some(Error)
    else None
  }

  /** Reads a response back from its dictionary form. */
  function FromDict(v: Value): Option<Response> {
    if v.VDict? && "status" in v.entries && "message" in v.entries && "data" in v.entries
       && v.entries["status"].VStr? && v.entries["message"].VStr? && v.entries["data"].VDict?
       && StatusFromValue(v.entries["status"].s).Some?
    then Some(Response(StatusFromValue(v.entries["status"].s).value, v.entries["message"].s, v.entries["data"].entries))
    else None
  }

  /** `to_dict` loses nothing: the status, message and data can be read back. */
  lemma ToDictRoundTrip(r: Response)
    ensures FromDict(ToDict(r)) == Some(r)
  {
    match r.status
    case Success =>
    case Process =>
      assert "process" != "success";
    case Error =>
      assert "error" != "success" && "error" != "process";
  }

  // ---------------------------------------------------------------- the path

  /** Index of the last `c` in `s`, or -1. */
  function LastIndexOf(s: string, c: char): (i: int)
    ensures -1 <= i < |s|
    ensures i >= 0 ==> s[i] == c
    ensures forall j :: i < j < |s| ==> s[j] != c
    decreases |s|
  {
    if s == [] then -1
    else if s[|s| - 1] == c then |s| - 1
    else LastIndexOf(s[..|s| - 1], c)
  }

  /** `Path(p).name`: the last path component. */
  function FileName(p: string): string {
    p[LastIndexOf(p, '/') + 1..]
  }

  /** `Path(p).suffix`: from the last dot of the name, unless that dot starts
      or ends the name. */
  function Suffix(p: string): (s: string)
    ensures s == "" || s[0] == '.'
  {
    var name := FileName(p);
    var i := LastIndexOf(name, '.');
    if 0 < i < |name| - 1 then name[i..] else ""
  }

  function AsciiLower(c: char): char {
    if 'A' <= c <= 'Z' then (c as int + 32) as char else c
  }

  /** `path.suffix.lower() == '.pdf'`. */
  predicate HasPdfSuffix(p: string) {
    var s := Suffix(p);
    |s| == 4 && s[0] == '.' && AsciiLower(s[1]) == 'p' && AsciiLower(s[2]) == 'd' && AsciiLower(s[3]) == 'f'
  }

  /** `p` ends in ".pdf" in any letter case, after a non-empty stem of the
      last path component. */
  predicate EndsWithPdf(p: string) {
    && |p| >= 5 && p[|p| - 5] != '/' && p[|p| - 4] == '.'
    && AsciiLower(p[|p| - 3]) == 'p' && AsciiLower(p[|p| - 2]) == 'd' && AsciiLower(p[|p| - 1]) == 'f'
  }

  /** The suffix check accepts exactly the paths ending in ".pdf", in any
      letter case, after a non-empty stem. */
  lemma PdfSuffixIsEnding(p: string)
    ensures HasPdfSuffix(p) <==> EndsWithPdf(p)
  {
  }

  const OpenedMessage: string := "PDF-файл успешно открыт"

  /** `_open_pdf`: the existence check first, then the suffix check, then
      `fitz.open`; each failure is an error response and leaves no document. */
  function OpenResult(path: string, fs: FileSystem): Result<Document, Response> {
    if path !in fs then
      Err(Response(Error, "Файл не найден: " + path, map[]))
    else if !HasPdfSuffix(path) then
      Err(Response(Error, "Файл должен быть в формате PDF, получен: " + Suffix(path), map[]))
    else match fs[path]
      case Unopenable(e) => Err(Response(Error, "Ошибка при открытии PDF-файла: " + e, map[]))
      case Openable(d) => Ok(d)
  }

  // ------------------------------------------------------------- the verdict

  /** `if self.doc:` on a PyMuPDF handle: the handle defines `__len__` (its page
      count), so a handle to a zero-page document is false as well as `None`. */
  predicate HandleTruthy(doc: Option<Document>) {
    doc.Some? && |doc.value.pages| > 0
  }

  /** Sum of the non-whitespace character counts of the pages. */
  function TotalTextLength(pages: seq<Page>): nat
    decreases |pages|
  {
    if pages == [] then 0
    else TotalTextLength(pages[..|pages| - 1]) + NonSpaceCount(pages[|pages| - 1].text)
  }

  /** `avg_text_per_page`, 0 without pages. */
  function AverageTextPerPage(total: nat, pageCount: nat): real {
    if pageCount > 0 then (total as real) / (pageCount as real) else 0.0
  }

  /** `has_images`: one of the first three pages has an image. */
  predicate ImagesInFirstPages(pages: seq<Page>) {
    exists i :: 0 <= i < |pages| && i < 3 && pages[i].hasImages
  }

  /** The decision chain of `_is_image_based_pdf` as written. */
  predicate DecideImageBased(hasImages: bool, avg: real) {
    if hasImages && avg < MinTextLength as real then true
    else if avg < MinTextLength as real then true
    else false
  }

  /** `_is_image_based_pdf` on the current handle; `Err` is the exception a
      faulty page read raises. */
  function Classification(doc: Option<Document>): (r: Result<bool, string>)
    ensures !HandleTruthy(doc) ==> r == Ok(true)
    ensures r.Err? <==> HandleTruthy(doc) && doc.value.fault.Some?
    ensures r.Err? ==> r.error == doc.value.fault.value
  {
    if !HandleTruthy(doc) then Ok(true)
    else if doc.value.fault.Some? then Err(doc.value.fault.value)
    else
      var pages := doc.value.pages;
      Ok(DecideImageBased(ImagesInFirstPages(pages), AverageTextPerPage(TotalTextLength(pages), |pages|)))
  }

  /** The image check never changes the verdict: both branches test the same
      threshold. */
  lemma ImageCheckIrrelevant(hasImages: bool, avg: real)
    ensures DecideImageBased(hasImages, avg) == (avg < MinTextLength as real)
    ensures DecideImageBased(true, avg) == DecideImageBased(false, avg)
  {
  }

  lemma AverageBelowThreshold(total: nat, n: nat)
    requires n > 0
    ensures AverageTextPerPage(total, n) < MinTextLength as real <==> total < MinTextLength * n
  {
    var avg := (total as real) / (n as real);
    assert avg * (n as real) == total as real;
    if total < MinTextLength * n {
      assert avg * (n as real) < (MinTextLength as real) * (n as real);
    } else {
      assert avg * (n as real) >= (MinTextLength as real) * (n as real);
    }
  }

  /** A readable document is image-based exactly when its pages average fewer
      than 50 non-whitespace characters, whatever its images; without a handle
      or without pages it is image-based. */
  lemma VerdictIsTextThreshold(doc: Option<Document>)
    requires doc.Some? ==> doc.value.fault == None
    ensures Classification(doc).Ok?
    ensures !HandleTruthy(doc) ==> Classification(doc).value
    ensures HandleTruthy(doc) ==>
      (Classification(doc).value <==> TotalTextLength(doc.value.pages) < MinTextLength * |doc.value.pages|)
  {
    if HandleTruthy(doc) {
      var pages := doc.value.pages;
      ImageCheckIrrelevant(ImagesInFirstPages(pages), AverageTextPerPage(TotalTextLength(pages), |pages|));
      AverageBelowThreshold(TotalTextLength(pages), |pages|);
    }
  }

  // ---------------------------------------------------------- text and metadata

  /** The label `_extract_text` puts before page `k` (counting from 1). */
  function PageHeader(k: nat): string {
    "--- Страница " + NatToString(k) + " ---\n"
  }

  function PageBlocks(pages: seq<Page>): (blocks: seq<string>)
    ensures |blocks| == |pages|
    ensures forall k :: 0 <= k < |pages| ==> blocks[k] == PageHeader(k + 1) + pages[k].text
  {
    seq(|pages|, k requires 0 <= k < |pages| => PageHeader(k + 1) + pages[k].text)
  }

  /** `_extract_text`: `""` without a (truthy) handle. */
  function ExtractResult(doc: Option<Document>): Result<string, string> {
    if !HandleTruthy(doc) then Ok("")
    else if doc.value.fault.Some? then Err(doc.value.fault.value)
    else Ok(Join("\n\n", PageBlocks(doc.value.pages)))
  }

  /** A join starts with its first part. */
  lemma {:induction false} JoinStartsWithFirst(sep: string, parts: seq<string>)
    requires |parts| >= 1
    ensures |Join(sep, parts)| >= |parts[0]|
    ensures Join(sep, parts)[..|parts[0]|] == parts[0]
  {
    if |parts| > 1 {
      assert Join(sep, parts) == parts[0] + (sep + Join(sep, parts[1..]));
    }
  }

  /** The extracted text of a document with pages begins with the first page's
      label, so it is never blank. */
  lemma {:induction false} ExtractedTextNotBlank(d: Document)
    requires |d.pages| >= 1 && d.fault == None
    ensures ExtractResult(Some(d)).Ok?
    ensures !IsBlank(ExtractResult(Some(d)).value)
    ensures ExtractResult(Some(d)).value[..|PageHeader(1)|] == PageHeader(1)
  {
    var blocks := PageBlocks(d.pages);
    JoinStartsWithFirst("\n\n", blocks);
    var text := Join("\n\n", blocks);
    assert blocks[0][..|PageHeader(1)|] == PageHeader(1);
    assert text[..|PageHeader(1)|] == PageHeader(1) by {
      assert text[..|blocks[0]|] == blocks[0];
    }
    assert text[0] == '-';
  }

  /** `_get_metadata`: `{}` without a (truthy) handle; otherwise the seven
      document fields, `""` where missing, and the page count. */
  function MetadataRecord(doc: Option<Document>): (m: map<string, Value>)
    ensures !HandleTruthy(doc) ==> m == map[]
    ensures HandleTruthy(doc) ==>
      && m.Keys == {"title", "author", "subject", "creator", "producer",
                    "creation_date", "modification_date", "pages_count"}
      && m["pages_count"] == VInt(|doc.value.pages|)
      && m["creation_date"] == VStr(MetaField(doc.value, "creationDate"))
      && m["modification_date"] == VStr(MetaField(doc.value, "modDate"))
      && forall k :: k in {"title", "author", "subject", "creator", "producer"} ==> m[k] == VStr(MetaField(doc.value, k))
  {
    if !HandleTruthy(doc) then map[]
    else
      var d := doc.value;
      map["title" := VStr(MetaField(d, "title")),
          "author" := VStr(MetaField(d, "author")),
          "subject" := VStr(MetaField(d, "subject")),
          "creator" := VStr(MetaField(d, "creator")),
          "producer" := VStr(MetaField(d, "producer")),
          "creation_date" := VStr(MetaField(d, "creationDate")),
          "modification_date" := VStr(MetaField(d, "modDate")),
          "pages_count" := VInt(|d.pages|)]
  }

  /** `metadata.get(key, "")`. */
  function MetaField(d: Document, key: string): string {
    if key in d.metadata then d.metadata[key] else ""
  }

  // ---------------------------------------------------------------- process

  const ImageMessage: string :=
    "Переданный PDF-файл является картинкой и требует OCR. Пока не умею работать с таким форматом."
  const NoTextMessage: string :=
    "Не удалось извлечь текст из PDF-файла. Возможно, файл поврежден или зашифрован."
  const ProcessedMessage: string := "PDF-файл успешно обработан"

  function FailureResponse(e: string): Response {
    Response(Error, "Ошибка при обработке PDF-файла: " + e, map[])
  }

  /** The answer to an image-based document. */
  function ImageResponse(meta: map<string, Value>): (r: Response)
    ensures r.status == Error && r.data.Keys == {"pdf_type", "requires_ocr", "metadata"}
    ensures r.data["pdf_type"] == VStr("image_based") && r.data["requires_ocr"] == VBool(true)
    ensures r.data["metadata"] == VDict(meta)
  {
    Response(Error, ImageMessage,
             map["pdf_type" := VStr("image_based"), "requires_ocr" := VBool(true), "metadata" := VDict(meta)])
  }

  /** The answer to a structured document with its extracted text. */
  function StructuredResponse(text: string, meta: map<string, Value>): (r: Response)
    ensures r.status == Success && r.message == ProcessedMessage
    ensures r.data.Keys == {"pdf_type", "text", "metadata", "text_length"}
    ensures r.data["pdf_type"] == VStr("structured") && r.data["metadata"] == VDict(meta)
    ensures r.data["text"] == VStr(text) && r.data["text_length"] == VInt(|text|)
  {
    Response(Success, ProcessedMessage,
             map["pdf_type" := VStr("structured"), "text" := VStr(text),
                 "metadata" := VDict(meta), "text_length" := VInt(|text|)])
  }

  /** The body of `process` after a successful open: classify, then extract. */
  function ProcessOpened(d: Document): Response {
    var h := Some(d);
    match Classification(h)
    case Err(e) => FailureResponse(e)
    case Ok(true) => ImageResponse(MetadataRecord(h))
    case Ok(false) =>
      match ExtractResult(h)
      case Err(e) => FailureResponse(e)
      case Ok(text) =>
        if IsBlank(text) then Response(Error, NoTextMessage, map["metadata" := VDict(MetadataRecord(h))])
        else StructuredResponse(text, MetadataRecord(h))
  }

  /** `process` (and `process_treatment_plan_pdf`) as a function of the path and
      the file system. */
  function ProcessOutcome(path: string, fs: FileSystem): Value {
    match OpenResult(path, fs)
    case Err(r) => ToDict(r)
    case Ok(d) => ToDict(ProcessOpened(d))
  }

  /** The "no extractable text" branch cannot follow a structured verdict: a
      structured verdict needs at least one page, and every page block starts
      with a non-whitespace label. */
  lemma {:induction false} NoBlankAfterStructured(d: Document)
    requires Classification(Some(d)) == Ok(false)
    ensures ProcessOpened(d).status == Success
    ensures ProcessOpened(d).message == ProcessedMessage
  {
    assert HandleTruthy(Some(d));
    ExtractedTextNotBlank(d);
  }

  /** Open failures come back unchanged; a missing file is reported before a
      wrong suffix. */
  lemma OpenFailurePassedThrough(path: string, fs: FileSystem)
    requires OpenResult(path, fs).Err?
    ensures ProcessOutcome(path, fs) == ToDict(OpenResult(path, fs).error)
    ensures path !in fs ==> OpenResult(path, fs).error.message == "Файл не найден: " + path
    ensures path in fs && !HasPdfSuffix(path) ==>
      OpenResult(path, fs).error.message == "Файл должен быть в формате PDF, получен: " + Suffix(path)
    ensures OpenResult(path, fs).error.status == Error && OpenResult(path, fs).error.data == map[]
  {
  }

  /** After a successful open of a readable document averaging fewer than 50
      non-whitespace characters per page (or without pages), `process` answers
      with an error asking for OCR, carrying the metadata. */
  lemma ImageBasedOutcome(d: Document)
    requires d.fault == None
    requires |d.pages| == 0 || TotalTextLength(d.pages) < MinTextLength * |d.pages|
    ensures ProcessOpened(d) == ImageResponse(MetadataRecord(Some(d)))
  {
    VerdictIsTextThreshold(Some(d));
  }

  /** Otherwise `process` succeeds with the page-labelled text, its length and
      the metadata. */
  lemma StructuredTextOutcome(d: Document)
    requires d.fault == None
    requires |d.pages| > 0 && TotalTextLength(d.pages) >= MinTextLength * |d.pages|
    ensures ProcessOpened(d) == StructuredResponse(Join("\n\n", PageBlocks(d.pages)), MetadataRecord(Some(d)))
  {
    VerdictIsTextThreshold(Some(d));
    NoBlankAfterStructured(d);
  }

  /** A document that opens but has no pages is a falsy handle, so the
      `if self.doc` guard of the `finally` clause skips it. */
  lemma ZeroPageDocumentLeftOpen(fs: FileSystem, path: string)
    requires path in fs && HasPdfSuffix(path) && fs[path] == Openable(Document([], map[], None))
    ensures OpenResult(path, fs).Ok?
    ensures !HandleTruthy(Some(OpenResult(path, fs).value))
  {
  }

  /** A processor for one upload path; `doc` is `self.doc` and `closed` says
      whether that handle has been released. */
  class PdfProcessor {
    const pdfPath: string
    var doc: Option<Document>
    var closed: bool

    constructor (pdfPath: string)
      ensures this.pdfPath == pdfPath && doc == None && !closed
    {
      this.pdfPath := pdfPath;
      doc := None;
      closed := false;
    }

    method OpenPdf(fs: FileSystem) returns (r: Response)
      modifies this
      ensures OpenResult(pdfPath, fs).Err? ==>
        r == OpenResult(pdfPath, fs).error && doc == old(doc) && closed == old(closed)
      ensures OpenResult(pdfPath, fs).Ok? ==>
        r == Response(Success, OpenedMessage, map[]) && doc == Some(OpenResult(pdfPath, fs).value) && !closed
    {
      if pdfPath !in fs {
        return Response(Error, "Файл не найден: " + pdfPath, map[]);
      }
      if !HasPdfSuffix(pdfPath) {
        return Response(Error, "Файл должен быть в формате PDF, получен: " + Suffix(pdfPath), map[]);
      }
      match fs[pdfPath]
      case Unopenable(e) =>
        r := Response(Error, "Ошибка при открытии PDF-файла: " + e, map[]);
      case Openable(d) =>
        doc, closed := Some(d), false;
        r := Response(Success, OpenedMessage, map[]);
    }

    /** `_is_image_based_pdf`; `pagesScanned` counts the pages the image scan looked at. */
    method IsImageBasedPdf() returns (r: Result<bool, string>, ghost pagesScanned: nat)
      ensures r == Classification(doc)
      ensures HandleTruthy(doc) && doc.value.fault == None ==>
        && pagesScanned <= |doc.value.pages| && pagesScanned <= 3
        && (forall j :: 0 <= j < pagesScanned - 1 ==> !doc.value.pages[j].hasImages)
        && (ImagesInFirstPages(doc.value.pages) ==> pagesScanned >= 1 && doc.value.pages[pagesScanned - 1].hasImages)
        && (!ImagesInFirstPages(doc.value.pages) ==> pagesScanned == if |doc.value.pages| < 3 then |doc.value.pages| else 3)
    {
      pagesScanned := 0;
      if !HandleTruthy(doc) {
        return Ok(true), pagesScanned;
      }
      var d := doc.value;
      if d.fault.Some? {
        return Err(d.fault.value), pagesScanned;
      }
      var totalPages := |d.pages|;
      var totalTextLength := 0;
      var i := 0;
      while i < totalPages
        invariant 0 <= i <= totalPages
        invariant totalTextLength == TotalTextLength(d.pages[..i])
      {
        assert d.pages[..i + 1][..i] == d.pages[..i];
        totalTextLength := totalTextLength + NonSpaceCount(d.pages[i].text);
        i := i + 1;
      }
      assert d.pages[..totalPages] == d.pages;
      var avg := AverageTextPerPage(totalTextLength, totalPages);

      var hasImages := false;
      var limit := if totalPages < 3 then totalPages else 3;
      var p := 0;
      while p < limit
        invariant 0 <= p <= limit
        invariant forall j :: 0 <= j < p ==> !d.pages[j].hasImages
      {
        if d.pages[p].hasImages {
          hasImages := true;
          break;
        }
        p := p + 1;
      }
      pagesScanned := if hasImages then p + 1 else p;
      assert hasImages == ImagesInFirstPages(d.pages);

      if hasImages && avg < MinTextLength as real {
        return Ok(true), pagesScanned;
      }
      if avg < MinTextLength as real {
        return Ok(true), pagesScanned;
      }
      return Ok(false), pagesScanned;
    }

    /** `_extract_text`: labels each page and joins the blocks with blank lines. */
    method ExtractText() returns (r: Result<string, string>)
      ensures r == ExtractResult(doc)
    {
      if !HandleTruthy(doc) {
        return Ok("");
      }
      var d := doc.value;
      if d.fault.Some? {
        return Err(d.fault.value);
      }
      var allText: seq<string> := [];
      var k := 0;
      while k < |d.pages|
        invariant 0 <= k <= |d.pages|
        invariant allText == PageBlocks(d.pages[..k])
      {
        allText := allText + [PageHeader(k + 1) + d.pages[k].text];
        k := k + 1;
      }
      assert d.pages[..k] == d.pages;
      return Ok(Join("\n\n", allText));
    }

    method GetMetadata() returns (m: map<string, Value>)
      ensures m == MetadataRecord(doc)
    {
      if !HandleTruthy(doc) {
        return map[];
      }
      var d := doc.value;
      m := map["title" := VStr(MetaField(d, "title")),
               "author" := VStr(MetaField(d, "author")),
               "subject" := VStr(MetaField(d, "subject")),
               "creator" := VStr(MetaField(d, "creator")),
               "producer" := VStr(MetaField(d, "producer")),
               "creation_date" := VStr(MetaField(d, "creationDate")),
               "modification_date" := VStr(MetaField(d, "modDate")),
               "pages_count" := VInt(|d.pages|)];
    }

    /** Releases the handle whenever one was opened (see the finding about the
        `if self.doc` guard). */
    method Close()
      modifies this`closed
      ensures closed == (old(closed) || doc.Some?)
    {
      if doc.Some? {
        closed := true;
      }
    }

    /** The `finally` clause as written: `if self.doc: self.doc.close()`,
        which skips a handle with no pages. */
    method CloseAsWritten()
      modifies this`closed
      ensures closed == (old(closed) || HandleTruthy(doc))
    {
      if HandleTruthy(doc) {
        closed := true;
      }
    }

    /** `process` as written: the same outcome, but after a successful open
        the handle is released only when the document has pages. */
    method ProcessAsWritten(fs: FileSystem) returns (out: Value)
      modifies this
      ensures out == ProcessOutcome(pdfPath, fs)
      ensures OpenResult(pdfPath, fs).Ok? ==>
        doc == Some(OpenResult(pdfPath, fs).value) && (closed <==> |doc.value.pages| > 0)
      ensures OpenResult(pdfPath, fs).Err? ==> doc == old(doc) && closed == old(closed)
    {
      var openResult := OpenPdf(fs);
      if openResult.status == Error {
        return ToDict(openResult);
      }
      var response := Analyse();
      CloseAsWritten();
      out := ToDict(response);
    }

    /** `process`: open, classify, extract, and release the handle on every
        path after a successful open. */
    method Process(fs: FileSystem) returns (out: Value)
      modifies this
      ensures out == ProcessOutcome(pdfPath, fs)
      ensures OpenResult(pdfPath, fs).Ok? ==> doc == Some(OpenResult(pdfPath, fs).value) && closed
      ensures OpenResult(pdfPath, fs).Err? ==> doc == old(doc) && closed == old(closed)
    {
      var openResult := OpenPdf(fs);
      if openResult.status == Error {
        return ToDict(openResult);
      }
      var response := Analyse();
      Close();
      out := ToDict(response);
    }

    /** The `try` block of `process` on an opened document: classify, then
        extract text and metadata; an exception becomes the failure response. */
    method Analyse() returns (response: Response)
      requires doc.Some?
      ensures response == ProcessOpened(doc.value)
    {
      var verdict, _ := IsImageBasedPdf();
      match verdict {
        case Err(e) =>
          response := FailureResponse(e);
        case Ok(true) =>
          var metadata := GetMetadata();
          response := ImageResponse(metadata);
        case Ok(false) =>
          var extracted := ExtractText();
          match extracted {
            case Err(e) =>
              response := FailureResponse(e);
            case Ok(text) =>
              var metadata := GetMetadata();
              if IsBlank(text) {
                response := Response(Error, NoTextMessage, map["metadata" := VDict(metadata)]);
              } else {
                response := StructuredResponse(text, metadata);
              }
          }
      }
    }
  }

  /** `process_treatment_plan_pdf`: a fresh processor for the path, processed once. */
  method ProcessTreatmentPlanPdf(path: string, fs: FileSystem) returns (out: Value)
    ensures out == ProcessOutcome(path, fs)
  {
    var processor := new PdfProcessor(path);
    out := processor.Process(fs);
  }
}
