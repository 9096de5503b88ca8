/** server/src/utils/document_processor.py: the text of an uploaded file,
    chosen by the file name's extension. The PDF, DOCX and XML libraries and
    the file system appear only as the values they hand back. */
module DocumentProcessor {
  import opened Wrappers
  import opened Text

  /** The four processors. */
  datatype FileKind = Pdf | Docx | Txt | Xml

  /** An XML element as ElementTree gives it: its text, its children in
      document order, and the text after its end tag. */
  datatype Element = Element(text: Option<string>, children: seq<Element>, tail: Option<string>)

  /** What each library returns for a file path, or the message of the
      exception it raises: the pages' `extract_text()`, the paragraphs'
      `text`, the UTF-8 contents, the parsed root element. */
  datatype Readers = Readers(
    pdfPages: string -> Outcome<seq<string>>,
    docxParagraphs: string -> Outcome<seq<string>>,
    readText: string -> Outcome<string>,
    parseXml: string -> Outcome<Element>)

  /** The value of `extract_text_from_file`, or the `HTTPException` it raises. */
  datatype FileText = Extracted(text: string) | HttpFailure(statusCode: int, detail: string)

  // ---------------------------------------------------------------------
  // The extension

  /** `filename.lower().split('.')[-1]`. */
  function Extension(filename: string): string {
    var parts := SplitOn(Lower(filename), '.');
    parts[|parts| - 1]
  }

  /** The extension has no '.', ends the lower-cased name, and follows a
      '.' when there is one; with no '.' it is the whole lower-cased name. */
  lemma {:induction false} ExtensionOutcome(filename: string)
    ensures var low, ext := Lower(filename), Extension(filename);
            && '.' !in ext
            && ('.' !in low ==> ext == low)
            && ('.' in low ==> |ext| < |low| && low[|low| - |ext| - 1] == '.' && low[|low| - |ext|..] == ext)
  {
    var low := Lower(filename);
    var parts := SplitOn(low, '.');
    if |parts| >= 2 {
      JoinLast(parts, ".");
      var front := Join(parts[..|parts| - 1], ".");
      assert low == front + "." + parts[|parts| - 1];
    }
  }

  /** The processor an extension selects, or None when it is unsupported. */
  function KindOf(ext: string): Option<FileKind> {
    if ext == "pdf" then Some(Pdf)
    else if ext == "docx" || ext == "doc" then Some(Docx)
    else if ext == "txt" then Some(Txt)
    else if ext == "xml" then Some(Xml)
    else None
  }

  // ---------------------------------------------------------------------
  // PDF pages and DOCX paragraphs: `text += part + "\n"`

  /** Every part followed by a line break. */
  function Terminated(parts: seq<string>): (lines: seq<string>)
    ensures |lines| == |parts|
  {
    seq(|parts|, i requires 0 <= i < |parts| => parts[i] + "\n")
  }

  /** The accumulated text: each part and its line break, in order. */
  function LinesText(parts: seq<string>): string {
    Concat(Terminated(parts))
  }

  /** The loop of `process_pdf` over pages and of `process_docx` over paragraphs. */
  method AccumulateLines(parts: seq<string>) returns (text: string)
    ensures text == LinesText(parts)
  {
    text := "";
    var i := 0;
    while i < |parts|
      invariant 0 <= i <= |parts|
      invariant text == Concat(Terminated(parts)[..i])
    {
      assert Terminated(parts)[..i + 1] == Terminated(parts)[..i] + [parts[i] + "\n"];
      ConcatSnoc(Terminated(parts)[..i], parts[i] + "\n");
      text := text + parts[i] + "\n";
      i := i + 1;
    }
    assert Terminated(parts)[..i] == Terminated(parts);
  }

  /** The accumulated text is the parts joined by line breaks with one more
      at the end, or empty when there are no parts. */
  lemma {:induction false} LinesAreJoined(parts: seq<string>)
    ensures LinesText(parts) == if parts == [] then "" else Join(parts, "\n") + "\n"
    decreases |parts|
  {
    if parts != [] {
      var n := |parts| - 1;
      var front := parts[..n];
      assert Terminated(parts)[..n] == Terminated(front);
      assert LinesText(parts) == LinesText(front) + (parts[n] + "\n");
      LinesAreJoined(front);
      if n > 0 {
        JoinLast(parts, "\n");
      } else {
        assert Join(parts, "\n") == parts[0];
      }
    }
  }

  /** Splitting the text at line breaks gives the parts back, and an empty
      last piece, when no part holds a line break. */
  lemma {:induction false} LinesSplit(parts: seq<string>)
    requires forall i :: 0 <= i < |parts| ==> '\n' !in parts[i]
    ensures SplitOn(LinesText(parts), '\n') == parts + [""]
  {
    LinesAreJoined(parts);
    var xs := parts + [""];
    if parts != [] {
      JoinLast(xs, "\n");
      assert xs[..|xs| - 1] == parts;
      assert Join(xs, "\n") == Join(parts, "\n") + "\n" + "";
    } else {
      assert Join(xs, "\n") == "";
    }
    assert Join(xs, ['\n']) == LinesText(parts);
    assert forall i :: 0 <= i < |xs| ==> '\n' !in xs[i];
    SplitJoin(xs, '\n');
  }

  // ---------------------------------------------------------------------
  // XML

  function OrEmpty(s: Option<string>): string {
    if s.Some? then s.value else ""
  }

  /** `"".join(e.itertext())`: the element's text, then for each child its
      own itertext followed by its tail. */
  function Itertext(e: Element): string
    decreases e, |e.children| + 1
  {
    OrEmpty(e.text) + ChildrenItertext(e, |e.children|)
  }

  /** The part of `Itertext(e)` contributed by the first `n` children. */
  function ChildrenItertext(e: Element, n: nat): string
    requires n <= |e.children|
    decreases e, n
  {
    if n == 0 then ""
    else ChildrenItertext(e, n - 1) + Itertext(e.children[n - 1]) + OrEmpty(e.children[n - 1].tail)
  }

  /** The nested `extract_text`: text, then each child's result, then the
      tail. Its result is the element's itertext followed by its own tail,
      so the root's tail is part of the document text. */
  method ExtractText(e: Element) returns (text: string)
    ensures text == Itertext(e) + OrEmpty(e.tail)
    decreases e
  {
    text := OrEmpty(e.text);
    var i := 0;
    while i < |e.children|
      invariant 0 <= i <= |e.children|
      invariant text == OrEmpty(e.text) + ChildrenItertext(e, i)
    {
      var child := e.children[i];
      var childText := ExtractText(child);
      assert ChildrenItertext(e, i + 1) == ChildrenItertext(e, i) + (Itertext(child) + OrEmpty(child.tail));
      text := text + childText;
      i := i + 1;
    }
    assert Itertext(e) == OrEmpty(e.text) + ChildrenItertext(e, |e.children|);
    text := text + OrEmpty(e.tail);
  }

  // ---------------------------------------------------------------------
  // Dispatch

  const FailurePrefix := "Failed to process "

  /** The selected processor's text, or the message of the exception raised
      while reading the file. */
  function Process(kind: FileKind, filePath: string, readers: Readers): Outcome<string> {
    match kind
    case Pdf =>
      (match readers.pdfPages(filePath)
       case Ok(pages) => Ok(LinesText(pages))
       case Err(e) => Err(e))
    case Docx =>
      (match readers.docxParagraphs(filePath)
       case Ok(paragraphs) => Ok(LinesText(paragraphs))
       case Err(e) => Err(e))
    case Txt => readers.readText(filePath)
    case Xml =>
      (match readers.parseXml(filePath)
       case Ok(root) => Ok(Itertext(root) + OrEmpty(root.tail))
       case Err(e) => Err(e))
  }

  /** `extract_text_from_file`: every failure, an unsupported extension
      included, becomes status 400 with the file name in the detail. */
  function ExtractFromFile(filePath: string, filename: string, readers: Readers): FileText {
    Dispatch(Extension(filename), filePath, filename, readers)
  }

  /** The `if`/`elif` chain and the `except` clause for a given extension. */
  function Dispatch(ext: string, filePath: string, filename: string, readers: Readers): FileText {
    match KindOf(ext)
    case None => HttpFailure(400, FailurePrefix + filename + ": " + "Unsupported file type: " + ext)
    case Some(kind) =>
      match Process(kind, filePath, readers)
      case Ok(text) => Extracted(text)
      case Err(e) => HttpFailure(400, FailurePrefix + filename + ": " + e)
  }

  /** The dispatch as the source writes it, calling the processors. */
  method ExtractTextFromFile(filePath: string, filename: string, readers: Readers) returns (r: FileText)
    ensures r == ExtractFromFile(filePath, filename, readers)
  {
    var fileExt := Extension(filename);
    var kind := KindOf(fileExt);
    if kind.None? {
      return HttpFailure(400, FailurePrefix + filename + ": " + "Unsupported file type: " + fileExt);
    }
    match kind.value {
      case Pdf =>
        var pages := readers.pdfPages(filePath);
        if pages.Err? {
          return HttpFailure(400, FailurePrefix + filename + ": " + pages.reason);
        }
        var text := AccumulateLines(pages.value);
        r := Extracted(text);
      case Docx =>
        var paragraphs := readers.docxParagraphs(filePath);
        if paragraphs.Err? {
          return HttpFailure(400, FailurePrefix + filename + ": " + paragraphs.reason);
        }
        var text := AccumulateLines(paragraphs.value);
        r := Extracted(text);
      case Txt =>
        var contents := readers.readText(filePath);
        if contents.Err? {
          return HttpFailure(400, FailurePrefix + filename + ": " + contents.reason);
        }
        r := Extracted(contents.value);
      case Xml =>
        var root := readers.parseXml(filePath);
        if root.Err? {
          return HttpFailure(400, FailurePrefix + filename + ": " + root.reason);
        }
        var text := ExtractText(root.value);
        r := Extracted(text);
    }
  }

  /** Dispatch: pdf, doc or docx, txt and xml each select their processor,
      and nothing else is supported. */
  lemma KindDispatch(ext: string)
    ensures KindOf(ext) == Some(Pdf) <==> ext == "pdf"
    ensures KindOf(ext) == Some(Docx) <==> ext == "doc" || ext == "docx"
    ensures KindOf(ext) == Some(Txt) <==> ext == "txt"
    ensures KindOf(ext) == Some(Xml) <==> ext == "xml"
    ensures KindOf(ext).None? <==> ext !in {"pdf", "doc", "docx", "txt", "xml"}
  {
  }

  /** A failure is always status 400 with the detail starting "Failed to
      process <filename>: ", and an unsupported extension is named in it;
      a supported one gives the processor's text exactly when it succeeds. */
  lemma {:induction false} DispatchOutcome(ext: string, filePath: string, filename: string, readers: Readers)
    ensures var r := Dispatch(ext, filePath, filename, readers);
            && (r.HttpFailure? ==> r.statusCode == 400 && StartsWith(r.detail, FailurePrefix + filename + ": "))
            && (KindOf(ext).None? ==> r == HttpFailure(400, FailurePrefix + filename + ": Unsupported file type: " + ext))
            && (KindOf(ext).Some? ==> (r.Extracted? <==> Process(KindOf(ext).value, filePath, readers).Ok?))
            && (r.Extracted? ==> KindOf(ext).Some? && r.text == Process(KindOf(ext).value, filePath, readers).value)
  {
    var r := Dispatch(ext, filePath, filename, readers);
    var head := FailurePrefix + filename + ": ";
    var kind := KindOf(ext);
    if kind.None? {
      var rest := "Unsupported file type: " + ext;
      assert r.detail == head + rest;
      StartsWithTag(head, rest);
    } else {
      var out := Process(kind.value, filePath, readers);
      if out.Err? {
        assert r.detail == head + out.reason;
        StartsWithTag(head, out.reason);
      }
    }
  }

  /** Each child's itertext and tail appear, as one block, in the text of
      the first `n` children. */
  lemma {:induction false} ChildBlockInText(e: Element, n: nat, k: nat)
    requires k < n <= |e.children|
    ensures Contains(ChildrenItertext(e, n), Itertext(e.children[k]) + OrEmpty(e.children[k].tail))
    decreases n
  {
    var block := Itertext(e.children[k]) + OrEmpty(e.children[k].tail);
    var pre := ChildrenItertext(e, n - 1);
    var last := Itertext(e.children[n - 1]) + OrEmpty(e.children[n - 1].tail);
    assert ChildrenItertext(e, n) == pre + last;
    if k == n - 1 {
      ContainsInfix(pre, block, "");
      assert pre + block + "" == pre + last;
    } else {
      ChildBlockInText(e, n - 1, k);
      ContainsWithin("", pre, last, block);
      assert "" + pre + last == pre + last;
    }
  }

  /** The text each kind of file yields. PDF pages and DOCX paragraphs come
      back joined by line breaks with one closing line break, or as "" when
      there are none; a reader's failure is passed on as the reason. A text
      file is its contents. An XML file's text starts with the root's text,
      ends with the root's tail, and holds each child's text and tail. */
  lemma {:induction false} ProcessedText(filePath: string, readers: Readers)
    ensures match readers.pdfPages(filePath)
            case Ok(pages) =>
              Process(Pdf, filePath, readers) == Ok(if pages == [] then "" else Join(pages, "\n") + "\n")
            case Err(e) => Process(Pdf, filePath, readers) == Err(e)
    ensures match readers.docxParagraphs(filePath)
            case Ok(ps) =>
              Process(Docx, filePath, readers) == Ok(if ps == [] then "" else Join(ps, "\n") + "\n")
            case Err(e) => Process(Docx, filePath, readers) == Err(e)
    ensures Process(Txt, filePath, readers) == readers.readText(filePath)
    ensures readers.parseXml(filePath).Err? ==>
              Process(Xml, filePath, readers) == Err(readers.parseXml(filePath).reason)
    ensures readers.parseXml(filePath).Ok? ==>
              var root := readers.parseXml(filePath).value;
              var r := Process(Xml, filePath, readers);
              && r.Ok?
              && StartsWith(r.value, OrEmpty(root.text))
              && |OrEmpty(root.tail)| <= |r.value|
              && r.value[|r.value| - |OrEmpty(root.tail)|..] == OrEmpty(root.tail)
              && forall k :: 0 <= k < |root.children| ==>
                   Contains(r.value, Itertext(root.children[k]) + OrEmpty(root.children[k].tail))
  {
    if readers.pdfPages(filePath).Ok? {
      LinesAreJoined(readers.pdfPages(filePath).value);
    }
    if readers.docxParagraphs(filePath).Ok? {
      LinesAreJoined(readers.docxParagraphs(filePath).value);
    }
    if readers.parseXml(filePath).Ok? {
      var root := readers.parseXml(filePath).value;
      var head, tail := OrEmpty(root.text), OrEmpty(root.tail);
      var body := ChildrenItertext(root, |root.children|);
      var t := Itertext(root) + tail;
      assert t == head + (body + tail);
      StartsWithTag(head, body + tail);
      assert t[|t| - |tail|..] == tail;
      forall k | 0 <= k < |root.children|
        ensures Contains(t, Itertext(root.children[k]) + OrEmpty(root.children[k].tail))
      {
        ChildBlockInText(root, |root.children|, k);
        ContainsWithin(head, body, tail, Itertext(root.children[k]) + OrEmpty(root.children[k].tail));
      }
    }
  }
}
