/** The document upload route (app/api/documents/process/route.ts): the
    upload checks, the stored file name, the text extraction outcome and its
    failure test, the simulated memory extraction and the reply. Storage,
    the document table and the text extractors are parameters: the outcome
    of each is passed in. */
module DocumentsRoute {
  import opened Wrappers
  import opened Strings
  import opened Numbers

  const MaxSize: nat := 10 * 1024 * 1024

  const AllowedTypes: seq<string> := [
    "application/pdf",
    "application/vnd.openxmlformats-officedocument.wordprocessingml.document",
    "application/msword",
    "text/plain"]

  /** The uploaded file as the form data carries it. */
  datatype Upload = Upload(size: nat, fileType: string)

  /** Why an upload is refused, checked in the route's order: no file, too
      large, type not allowed. */
  function UploadProblem(file: Option<Upload>): (r: Option<string>)
    ensures r.None? <==> file.Some? && file.value.size <= MaxSize && file.value.fileType in AllowedTypes
    ensures file.None? ==> r == Some("No file provided")
  {
    if file.None? then Some("No file provided")
    else if file.value.size > MaxSize then Some("File too large. Maximum size is 10MB.")
    else if file.value.fileType !in AllowedTypes then Some("Unsupported file type")
    else None
  }

  // ---------------------------------------------------------------------
  // Stored name

  predicate SafeChar(c: char)
  {
    ('a' <= c <= 'z') || ('A' <= c <= 'Z') || ('0' <= c <= '9') || c == '.' || c == '-'
  }

  /** `filename.replace(/[^a-zA-Z0-9.-]/g, '_')`. */
  function Sanitise(name: string): (r: string)
    ensures |r| == |name|
    ensures forall i :: 0 <= i < |r| ==> r[i] == (if SafeChar(name[i]) then name[i] else '_')
  {
    if name == [] then []
    else [if SafeChar(name[0]) then name[0] else '_'] + Sanitise(name[1..])
  }

  /** A sanitised name has only safe characters and underscores (no path
      separator), and sanitising it again changes nothing. */
  lemma {:induction false} SanitisedIsSafe(name: string)
    ensures forall i :: 0 <= i < |Sanitise(name)| ==> SafeChar(Sanitise(name)[i]) || Sanitise(name)[i] == '_'
    ensures Sanitise(Sanitise(name)) == Sanitise(name)
  {
    var s := Sanitise(name);
    assert Sanitise(s) == s by {
      forall i | 0 <= i < |s| ensures Sanitise(s)[i] == s[i] {}
    }
  }

  /** The storage name: the upload time in milliseconds, a dash, the
      sanitised name. */
  function StoredName(now: nat, name: string): (r: string)
    ensures StartsWith(r, Show(now) + "-") && EndsWith(r, Sanitise(name))
  {
    var r := Show(now) + "-" + Sanitise(name);
    assert r[..|Show(now) + "-"|] == Show(now) + "-";
    assert r[|r| - |Sanitise(name)|..] == Sanitise(name);
    r
  }

  /** The time prefix of a stored name cannot run into the name: the first
      dash follows the time exactly. */
  lemma {:induction false} StoredNameSplits(now: nat, name: string)
    ensures var r := StoredName(now, name);
      r[|Show(now)|] == '-' && forall i :: 0 <= i < |Show(now)| ==> r[i] != '-'
  {
    var r := StoredName(now, name);
    forall i | 0 <= i < |Show(now)| ensures r[i] != '-' {
      assert r[i] == Show(now)[i];
      assert IsDigit(Show(now)[i]);
    }
  }

  // ---------------------------------------------------------------------
  // Text extraction

  /** What the extractor for the file's type does: produce a text, or
      throw with a message. */
  datatype Extraction = Extracted(text: string) | Threw(message: string)

  /** `simulateTextExtraction` for an allowed type: the text of a plain
      file, the text of a PDF (an explanation when it is blank), the text
      of a Word document; an exception becomes a message starting with
      "Error". */
  function ExtractedText(fileType: string, name: string, x: Extraction): (r: string)
    requires fileType in AllowedTypes
    ensures x.Threw? ==> StartsWith(r, "Error")
    ensures x.Extracted? && !Contains(fileType, "pdf") ==> r == x.text
  {
    if fileType == "text/plain" then
      match x
      case Extracted(t) => t
      case Threw(_) => "Error reading text file: " + name
    else if Contains(fileType, "pdf") then
      match x
      case Extracted(t) =>
        if t == [] || IsBlank(t) then
          "PDF " + name + " was parsed but contains no extractable text. This might be a scanned image PDF or an empty document."
        else t
      case Threw(m) => "Error parsing PDF: " + name + ". " + m
    else
      match x
      case Extracted(t) => t
      case Threw(m) => "Error parsing Word document: " + name + ". " + m
  }

  /** The route's failure test on the extracted text. */
  predicate ExtractionFailed(t: string)
  {
    t == [] || IsBlank(t) || StartsWith(t, "Error")
  }

  /** Every exception of an extractor fails the upload. */
  lemma {:induction false} ThrowFails(fileType: string, name: string, m: string)
    requires fileType in AllowedTypes
    ensures ExtractionFailed(ExtractedText(fileType, name, Threw(m)))
  {
  }

  /** A PDF with no text passes the failure test: the explanation is
      treated as the document's text. */
  lemma {:induction false} BlankPdfPasses(name: string, t: string)
    requires IsBlank(t)
    ensures !ExtractionFailed(ExtractedText("application/pdf", name, Extracted(t)))
  {
    ContainsAt("application/pdf", "pdf", 12);
    var r := ExtractedText("application/pdf", name, Extracted(t));
    assert r[0] == 'P';
    TrimSpec(r);
  }

  /** A plain text file whose content starts with "Error" is refused like
      a failed extraction. */
  lemma {:induction false} ErrorTextRefused(content: string)
    requires StartsWith(content, "Error")
    ensures ExtractionFailed(ExtractedText("text/plain", "", Extracted(content)))
  {
  }

  // ---------------------------------------------------------------------
  // Simulated memories

  /** A memory the simulated analysis proposes. */
  datatype Draft = Draft(
    concept: string, data: string, salience: real, connections: seq<string>,
    memoryType: string, priority: nat, category: string, level: nat)

  const PdfStructure := Draft(
    "PDF Structure Analysis",
    "Document contains structured sections with headers, paragraphs, and potentially tables or images. Text extraction successful. Original PDF stored for future reference.",
    0.75, ["pdf_processing", "document_structure", "text_extraction", "file_storage"],
    "procedural", 6, "project", 0)

  const WordStructure := Draft(
    "Word Document Processing",
    "Microsoft Word document processed successfully. Extracted formatting, styles, and content structure. Original .docx file stored for future reference.",
    0.75, ["word_processing", "document_formatting", "content_structure", "file_storage"],
    "procedural", 6, "project", 0)

  const SampleConcepts := [
    Draft("Key Theme: Information Architecture",
      "Document appears to focus on organizing and structuring information in a logical, accessible manner. Content extracted and analyzed for key insights.",
      0.8, ["information_architecture", "organization", "structure", "content_analysis"],
      "semantic", 8, "idea", 0),
    Draft("Technical Implementation",
      "Contains technical details about system implementation, architecture decisions, and development processes. Document stored for future technical reference.",
      0.7, ["technical", "implementation", "architecture", "documentation"],
      "procedural", 7, "project", 0)]

  const AnalysisTail :=
    "). This document has been processed and stored, with key concepts extracted for memory storage. Original document is preserved in storage for future reference."

  /** The analysis of the file itself. */
  function Analysis(name: string, fileType: string): (r: Draft)
    ensures r.concept == "Document Analysis: " + name && r.level == 0 && r.salience == 0.85
  {
    Draft("Document Analysis: " + name, "AI analysis of " + name + " (" + fileType + AnalysisTail, 0.85, ["document_analysis", "ai_processing", "knowledge_extraction", "file_storage"],
      "semantic", 7, "project", 0)
  }

  predicate RootDraft(d: Draft)
  {
    d.level == 0 && 0.0 <= d.salience <= 1.0
  }

  /** `simulateDocumentProcessing`: the analysis, a structure memory for
      PDF and Word files, and two sample concepts, all at the root with a
      salience in [0, 1]. */
  function Simulated(name: string, fileType: string): (r: seq<Draft>)
    ensures |r| == (if Contains(fileType, "pdf") || Contains(fileType, "word") || Contains(fileType, "document") then 4 else 3)
    ensures r[0] == Analysis(name, fileType)
    ensures forall i :: 0 <= i < |r| ==> RootDraft(r[i])
  {
    var structure :=
      if Contains(fileType, "pdf") then [PdfStructure]
      else if Contains(fileType, "word") || Contains(fileType, "document") then [WordStructure]
      else [];
    [Analysis(name, fileType)] + structure + SampleConcepts
  }

  /** A proposed memory with the document reference the route adds. */
  datatype DocMemory = DocMemory(draft: Draft, documentId: Option<string>, documentName: string, documentUrl: string)

  /** `memories.map(m => ({ ...m, document_id, document_filename, document_url }))`. */
  function WithDocument(ds: seq<Draft>, docId: Option<string>, name: string, url: string): (r: seq<DocMemory>)
    ensures |r| == |ds|
    ensures forall i :: 0 <= i < |r| ==> r[i] == DocMemory(ds[i], docId, name, url)
  {
    if ds == [] then [] else [DocMemory(ds[0], docId, name, url)] + WithDocument(ds[1..], docId, name, url)
  }

  /** `text.substring(0, 500) + '...'`. */
  function Preview(t: string): (r: string)
    ensures EndsWith(r, "...")
    ensures |t| <= 500 ==> r == t + "..."
    ensures |t| > 500 ==> r == t[..500] + "..." && |r| == 503
  {
    var r := (if |t| <= 500 then t else t[..500]) + "...";
    assert r[|r| - 3..] == "...";
    r
  }

  datatype Reply =
    | BadUpload(message: string)
    | Crashed
    | StoreFailed
    | ExtractionError(details: string)
    | Processed(storedName: string, documentId: Option<string>, url: string, text: string,
                preview: string, memories: seq<DocMemory>)

  function StatusOf(r: Reply): int
  {
    match r
    case BadUpload(_) => 400
    case Crashed => 500
    case StoreFailed => 500
    case ExtractionError(_) => 400
    case Processed(_, _, _, _, _, _) => 200
  }

  /** `POST`: upload checks, then the stored name (a missing `filename`
      field makes `replace` throw: 500), the storage upload, the document
      row (its failure only loses the id), the extraction and its failure
      test, and the memories. */
  function Process(file: Option<Upload>, name: Option<string>, now: nat, stored: bool, url: string,
                   docId: Option<string>, x: Extraction): (r: Reply)
    ensures r.BadUpload? <==> UploadProblem(file).Some?
    ensures r.Processed? ==>
      file.Some? && name.Some? && stored &&
      r.storedName == StoredName(now, name.value) &&
      !ExtractionFailed(r.text) && r.text == ExtractedText(file.value.fileType, name.value, x) &&
      r.preview == Preview(r.text) &&
      r.memories == WithDocument(Simulated(name.value, file.value.fileType), docId, name.value, url)
    ensures r.ExtractionError? ==> StartsWith(r.details, "Error") || IsBlank(r.details) || r.details == "No text content found"
  {
    var problem := UploadProblem(file);
    if problem.Some? then BadUpload(problem.value)
    else if name.None? then Crashed
    else if !stored then StoreFailed
    else
      var text := ExtractedText(file.value.fileType, name.value, x);
      if ExtractionFailed(text) then ExtractionError(if text == [] then "No text content found" else text)
      else Processed(StoredName(now, name.value), docId, url, text, Preview(text),
                     WithDocument(Simulated(name.value, file.value.fileType), docId, name.value, url))
  }
}
