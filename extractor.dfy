/**
 * The extraction results: the extracted document assembled from the text of
 * each page, the table markup cut out of a page, and the three objects
 * s3_save writes under "{app_id}/{job_id}/{file_name}/" (the page texts, the
 * tables per page, and a metadata list that grows by one entry per save).
 */
module Extractor {
  import Text
  import opened Wrappers
  import Chunkers
  import DP = DocumentProcessing

  const TableOpen: string := "<table>"
  const TableClose: string := "</table>"

  // ---------------------------------------------------------------------
  // extract_tables_from_page
  // ---------------------------------------------------------------------

  /** The first position of pat in s, if any. */
  function Find(s: string, pat: string): (r: Option<nat>)
    requires |pat| > 0
    ensures r.Some? ==> r.value + |pat| <= |s| && pat <= s[r.value..] && forall j :: 0 <= j < r.value ==> !(pat <= s[j..])
    ensures r.None? ==> forall j :: 0 <= j <= |s| ==> !(pat <= s[j..])
  {
    if |s| < |pat| then None
    else if pat <= s then Some(0)
    else
      var r := Find(s[1..], pat);
      assert forall j :: 1 <= j <= |s| ==> s[j..] == s[1..][j - 1..];
      if r.None? then None else Some(r.value + 1)
  }

  /**
   * re.findall and re.sub with <table>.*?</table> under DOTALL: scanning from the left, a
   * "<table>" that has a "</table>" somewhere after it starts a match, which ends at the first
   * such "</table>"; the matches are cut out and collected in order.
   */
  function CutTables(s: string): (r: (string, seq<string>))
    ensures |r.0| <= |s| && 15 * |r.1| <= |s|
    decreases |s|
  {
    if s == [] then ("", [])
    else if TableOpen <= s && Find(s[7..], TableClose).Some? then
      var k := Find(s[7..], TableClose).value;
      var rest := CutTables(s[7 + k + 8..]);
      (rest.0, [s[..7 + k + 8]] + rest.1)
    else
      var rest := CutTables(s[1..]);
      ([s[0]] + rest.0, rest.1)
  }

  /** The total length of a list of strings. */
  function TotalLength(xs: seq<string>): nat
  {
    if xs == [] then 0 else |xs[0]| + TotalLength(xs[1..])
  }

  /** A table match: it opens with "<table>", closes with "</table>", and holds no earlier "</table>". */
  predicate TableMatch(t: string)
  {
    |t| >= 15 && TableOpen <= t && t[|t| - 8..] == TableClose &&
    forall j :: 7 <= j < |t| - 8 ==> !(TableClose <= t[j..])
  }

  /** The match starting at a "<table>": it reaches the first "</table>" after the opening tag. */
  lemma FirstMatch(s: string, k: nat)
    requires TableOpen <= s && Find(s[7..], TableClose) == Some(k)
    ensures 7 + k + 8 <= |s| && TableMatch(s[..7 + k + 8])
  {
    var t := s[..7 + k + 8];
    MatchEnds(s, k);
    forall j | 7 <= j < |t| - 8 ensures !(TableClose <= t[j..]) {
      NoEarlierClose(s, k, j);
    }
  }

  lemma MatchEnds(s: string, k: nat)
    requires TableOpen <= s && Find(s[7..], TableClose) == Some(k)
    ensures 7 + k + 8 <= |s| && TableOpen <= s[..7 + k + 8] && s[..7 + k + 8][7 + k..] == TableClose
  {
    var u := s[7..];
    assert TableClose <= u[k..];
    var tail := s[..7 + k + 8][7 + k..];
    forall m | 0 <= m < 8 ensures tail[m] == TableClose[m] {
      assert tail[m] == s[7 + k + m] == u[k..][m];
    }
  }

  lemma NoEarlierClose(s: string, k: nat, j: int)
    requires TableOpen <= s && Find(s[7..], TableClose) == Some(k)
    requires 7 <= j < 7 + k
    ensures !(TableClose <= s[..7 + k + 8][j..])
  {
    var u := s[7..];
    assert !(TableClose <= u[j - 7..]);
  }

  /**
   * Cutting loses no character (what is kept plus the cut tables is as long as the page), and
   * every cut piece is a shortest <table>...</table> match.
   */
  lemma {:induction false} CutTablesFacts(s: string)
    ensures var r := CutTables(s);
      |r.0| + TotalLength(r.1) == |s| && forall i :: 0 <= i < |r.1| ==> TableMatch(r.1[i])
    decreases |s|
  {
    if s != [] {
      if TableOpen <= s && Find(s[7..], TableClose).Some? {
        var k := Find(s[7..], TableClose).value;
        var t := s[..7 + k + 8];
        var rest := CutTables(s[7 + k + 8..]);
        CutTablesFacts(s[7 + k + 8..]);
        FirstMatch(s, k);
        assert CutTables(s) == (rest.0, [t] + rest.1);
        assert ([t] + rest.1)[1..] == rest.1;
        assert TotalLength([t] + rest.1) == |t| + TotalLength(rest.1);
        forall i | 0 <= i < |[t] + rest.1| ensures TableMatch(([t] + rest.1)[i]) {
          if i > 0 {
            assert ([t] + rest.1)[i] == rest.1[i - 1];
          }
        }
      } else {
        var rest := CutTables(s[1..]);
        CutTablesFacts(s[1..]);
        assert CutTables(s) == ([s[0]] + rest.0, rest.1);
      }
    }
  }

  /** A page without any "<table>" keeps all its text and has no tables. */
  lemma {:induction false} NoTablesNoCut(s: string)
    requires forall j :: 0 <= j <= |s| ==> !(TableOpen <= s[j..])
    ensures CutTables(s) == (s, [])
    decreases |s|
  {
    if s != [] {
      assert !(TableOpen <= s[0..]);
      assert s[0..] == s;
      forall j | 0 <= j <= |s[1..]| ensures !(TableOpen <= s[1..][j..]) {
        assert s[1..][j..] == s[j + 1..];
      }
      NoTablesNoCut(s[1..]);
      assert [s[0]] + s[1..] == s;
    }
  }

  /** extract_tables_from_page: the page text without its tables, and the stripped tables in order. */
  function ExtractTablesFromPage(pageText: string): (r: (string, seq<string>))
    ensures |r.1| == |CutTables(pageText).1|
  {
    var cut := CutTables(pageText);
    (cut.0, seq(|cut.1|, i requires 0 <= i < |cut.1| => Text.Strip(cut.1[i])))
  }

  /** Stripping a match changes nothing: it starts with '<' and ends with '>'. */
  lemma TablesAreUnstripped(pageText: string)
    ensures ExtractTablesFromPage(pageText) == CutTables(pageText)
  {
    var cut := CutTables(pageText);
    var stripped := ExtractTablesFromPage(pageText).1;
    CutTablesFacts(pageText);
    forall i | 0 <= i < |cut.1| ensures stripped[i] == cut.1[i] {
      var t := cut.1[i];
      assert TableMatch(t);
      assert t[0] == TableOpen[0] == '<';
      assert t[|t| - 1] == t[|t| - 8..][7] == '>';
      assert Text.Strip(t) == t;
    }
    assert stripped == cut.1;
  }

  // ---------------------------------------------------------------------
  // The extracted document.
  // ---------------------------------------------------------------------

  /** ExtractedDocument: page texts, a table list per page number, the whole text, the source name. */
  datatype ExtractedDocument = ExtractedDocument(pages: seq<string>, tables: map<int, seq<string>>, allText: Option<string>, inputPath: Option<string>)

  /** The concatenation of "<page>" + text + "</page>" over the pages. */
  function AllText(pages: seq<string>): string
  {
    if pages == [] then "" else AllText(pages[..|pages| - 1]) + "<page>" + pages[|pages| - 1] + "</page>"
  }

  /** Each page contributes its text and 13 characters of markup. */
  lemma {:induction false} AllTextLength(pages: seq<string>)
    ensures |AllText(pages)| == TotalLength(pages) + 13 * |pages|
  {
    if pages != [] {
      var init := pages[..|pages| - 1];
      AllTextLength(init);
      TotalLengthSnoc(init, pages[|pages| - 1]);
      assert init + [pages[|pages| - 1]] == pages;
    }
  }

  lemma {:induction false} TotalLengthSnoc(xs: seq<string>, x: string)
    ensures TotalLength(xs + [x]) == TotalLength(xs) + |x|
  {
    if xs != [] {
      TotalLengthSnoc(xs[1..], x);
      assert (xs + [x])[1..] == xs[1..] + [x];
    }
  }

  /** The table lists of pages 1..n, keyed by page number. */
  function PageTables(pages: seq<string>): (r: map<int, seq<string>>)
    ensures forall n :: n in r <==> 1 <= n <= |pages|
  {
    if pages == [] then map[]
    else PageTables(pages[..|pages| - 1])[|pages| := ExtractTablesFromPage(pages[|pages| - 1]).1]
  }

  /** Page number n holds the tables cut from the n-th page. */
  lemma {:induction false} PageTablesAt(pages: seq<string>, n: int)
    requires 1 <= n <= |pages|
    ensures PageTables(pages)[n] == ExtractTablesFromPage(pages[n - 1]).1
    decreases |pages|
  {
    if n < |pages| {
      var init := pages[..|pages| - 1];
      PageTablesAt(init, n);
      assert init[n - 1] == pages[n - 1];
    }
  }

  /**
   * get_document: pageTexts are the linearized texts of the analysed pages.  The stored pages
   * keep their table markup (the text without tables is computed and dropped), pages are
   * numbered from 1, and all_text wraps every page in <page> markup.
   */
  method GetDocument(pageTexts: seq<string>, fileName: string) returns (doc: ExtractedDocument)
    ensures doc.pages == pageTexts
    ensures doc.tables == PageTables(pageTexts)
    ensures doc.allText == Some(AllText(pageTexts))
    ensures doc.inputPath == Some(fileName)
  {
    var ePages: seq<string> := [];
    var allText := "";
    var allTables: map<int, seq<string>> := map[];
    var pageNumber := 1;
    while pageNumber <= |pageTexts|
      invariant 1 <= pageNumber <= |pageTexts| + 1
      invariant ePages == pageTexts[..pageNumber - 1]
      invariant allText == AllText(ePages)
      invariant allTables == PageTables(ePages)
    {
      var pageText := pageTexts[pageNumber - 1];
      var split := ExtractTablesFromPage(pageText);
      allText := allText + "<page>" + pageText + "</page>";
      allTables := allTables[pageNumber := split.1];
      assert pageTexts[..pageNumber] == ePages + [pageText];
      ePages := ePages + [pageText];
      assert ePages[..|ePages| - 1] == pageTexts[..pageNumber - 1];
      pageNumber := pageNumber + 1;
    }
    assert ePages == pageTexts;
    doc := ExtractedDocument(ePages, allTables, Some(allText), Some(fileName));
  }

  /** extract_nonpdf: the whole decoded object is the single page and the whole text, with no tables. */
  function ExtractNonPdf(content: string, s3Key: string): (doc: ExtractedDocument)
    ensures doc.pages == [content] && doc.tables == map[] && doc.allText == Some(content)
    ensures doc.inputPath == Some(Text.LastSegment(s3Key, '/'))
  {
    ExtractedDocument([content], map[], Some(content), Some(Text.LastSegment(s3Key, '/')))
  }

  // ---------------------------------------------------------------------
  // s3_save
  // ---------------------------------------------------------------------

  datatype TextPage = TextPage(pageNumber: int, pageText: string)
  datatype TablesPage = TablesPage(pageNumber: int, tables: seq<string>)

  /** extracted_text.json */
  datatype ExtractedText = ExtractedText(jobId: string, fileName: string, pages: seq<TextPage>)

  /** extracted_tables.json */
  datatype ExtractedTables = ExtractedTables(jobId: string, fileName: string, pages: seq<TablesPage>)

  /** One entry of metadata.json's "files" list. */
  datatype MetadataEntry = MetadataEntry(fileName: string, extractedTextKey: string, extractedTablesKey: string)

  /** metadata.json */
  datatype Metadata = Metadata(jobId: string, files: seq<MetadataEntry>)

  /** An object of the results bucket, as the service reads it back. */
  datatype StoredObject =
    | TextObject(text: ExtractedText)
    | TablesObject(tables: ExtractedTables)
    | MetadataObject(metadata: Metadata)
    | OtherObject   // anything that does not parse as a metadata document

  function ResultKey(appId: string, jobId: string, fileName: string, objectName: string): string
  {
    appId + "/" + jobId + "/" + fileName + "/" + objectName
  }

  /** The text payload: one entry per page, numbered 1..n, holding that page's text. */
  function TextPayload(doc: ExtractedDocument, jobId: string, fileName: string): (r: ExtractedText)
    ensures |r.pages| == |doc.pages|
    ensures forall i :: 0 <= i < |doc.pages| ==> r.pages[i] == TextPage(i + 1, doc.pages[i])
  {
    ExtractedText(jobId, fileName, seq(|doc.pages|, i requires 0 <= i < |doc.pages| => TextPage(i + 1, doc.pages[i])))
  }

  /** tables.get(i + 1, []) */
  function TablesOf(tables: map<int, seq<string>>, pageNumber: int): seq<string>
  {
    if pageNumber in tables then tables[pageNumber] else []
  }

  /** The tables payload: one entry per page (not per table key), numbered 1..n. */
  function TablesPayload(doc: ExtractedDocument, jobId: string, fileName: string): (r: ExtractedTables)
    ensures r.jobId == jobId && r.fileName == fileName && |r.pages| == |doc.pages|
  {
    ExtractedTables(jobId, fileName, seq(|doc.pages|, i requires 0 <= i < |doc.pages| => TablesPage(i + 1, TablesOf(doc.tables, i + 1))))
  }

  /**
   * The tables payload lists exactly pages 1..n: a page without tables gets [], and tables
   * keyed by a number outside 1..n appear nowhere.
   */
  lemma TablesPayloadPages(doc: ExtractedDocument, jobId: string, fileName: string)
    ensures var r := TablesPayload(doc, jobId, fileName);
      (forall i :: 0 <= i < |r.pages| ==>
        (r.pages[i].pageNumber == i + 1 &&
         (i + 1 in doc.tables ==> r.pages[i].tables == doc.tables[i + 1]) &&
         (i + 1 !in doc.tables ==> r.pages[i].tables == []))) &&
      (forall i :: 0 <= i < |r.pages| ==> (r.pages[i].pageNumber in doc.tables ==> 1 <= r.pages[i].pageNumber <= |doc.pages|))
  {
    var r := TablesPayload(doc, jobId, fileName);
    forall i | 0 <= i < |r.pages| ensures r.pages[i] == TablesPage(i + 1, TablesOf(doc.tables, i + 1)) {
      TablesPayloadAt(doc, jobId, fileName, i);
    }
  }

  lemma TablesPayloadAt(doc: ExtractedDocument, jobId: string, fileName: string, i: int)
    requires 0 <= i < |doc.pages|
    ensures TablesPayload(doc, jobId, fileName).pages[i] == TablesPage(i + 1, TablesOf(doc.tables, i + 1))
  {
  }

  /** For a document from get_document, the i-th tables entry holds the tables cut from the i-th page. */
  lemma DocumentTablesPerPage(pageTexts: seq<string>, fileName: string, jobId: string)
    ensures var doc := ExtractedDocument(pageTexts, PageTables(pageTexts), Some(AllText(pageTexts)), Some(fileName));
      var r := TablesPayload(doc, jobId, fileName);
      forall i :: 0 <= i < |pageTexts| ==> r.pages[i].tables == CutTables(pageTexts[i]).1
  {
    var doc := ExtractedDocument(pageTexts, PageTables(pageTexts), Some(AllText(pageTexts)), Some(fileName));
    var r := TablesPayload(doc, jobId, fileName);
    forall i | 0 <= i < |pageTexts| ensures r.pages[i].tables == CutTables(pageTexts[i]).1 {
      TablesPayloadAt(doc, jobId, fileName, i);
      assert i + 1 in doc.tables;
      PageTablesAt(pageTexts, i + 1);
      TablesAreUnstripped(pageTexts[i]);
    }
  }

  /**
   * The text payload is what the chunkers read: handed to the page-wise chunker it yields
   * the document's pages, one chunk text per page.
   */
  lemma TextPayloadFeedsChunkers(doc: ExtractedDocument, jobId: string, fileName: string)
    ensures var payload := TextPayload(doc, jobId, fileName);
      var content := Chunkers.Content(Some(seq(|payload.pages|, i requires 0 <= i < |payload.pages| =>
                                                Chunkers.Page(Some(payload.pages[i].pageText)))));
      |Chunkers.PagesOf(content)| == |doc.pages| &&
      forall i :: 0 <= i < |doc.pages| ==> Chunkers.PageText(Chunkers.PagesOf(content)[i]) == doc.pages[i]
  {
  }

  /** The object store behind s3_save. */
  class Bucket {
    var objects: map<string, StoredObject>

    constructor ()
      ensures objects == map[]
    {
      objects := map[];
    }

    /**
     * ExtractedDocument.s3_save: the name is cut to its last '/'-segment; the text and tables
     * objects are written, then the metadata object is read (a missing one starts empty), one
     * entry is appended and it is written back.  A metadata object that does not parse raises
     * after the first two writes.
     */
    method S3Save(doc: ExtractedDocument, appId: string, jobId: string, fileName: string) returns (r: Result<(), string>)
      modifies this
      ensures var name := Text.LastSegment(fileName, '/');
        var textKey := ResultKey(appId, jobId, name, "extracted_text.json");
        var tablesKey := ResultKey(appId, jobId, name, "extracted_tables.json");
        var metaKey := ResultKey(appId, jobId, name, "metadata.json");
        var written := old(objects)[textKey := TextObject(TextPayload(doc, jobId, name))]
                                   [tablesKey := TablesObject(TablesPayload(doc, jobId, name))];
        var entry := MetadataEntry(name, textKey, tablesKey);
        (metaKey !in written ==>
           r.Ok? && objects == written[metaKey := MetadataObject(Metadata(jobId, [entry]))]) &&
        (metaKey in written && written[metaKey].MetadataObject? ==>
           r.Ok? && objects == written[metaKey := MetadataObject(written[metaKey].metadata.(files := written[metaKey].metadata.files + [entry]))]) &&
        (metaKey in written && !written[metaKey].MetadataObject? ==> r.Err? && objects == written)
    {
      var name := Text.LastSegment(fileName, '/');
      var textKey := ResultKey(appId, jobId, name, "extracted_text.json");
      objects := objects[textKey := TextObject(TextPayload(doc, jobId, name))];
      var tablesKey := ResultKey(appId, jobId, name, "extracted_tables.json");
      objects := objects[tablesKey := TablesObject(TablesPayload(doc, jobId, name))];
      var metaKey := ResultKey(appId, jobId, name, "metadata.json");
      var metadata: Metadata;
      if metaKey !in objects {
        metadata := Metadata(jobId, []);
        assert metadata.files + [MetadataEntry(name, textKey, tablesKey)] == [MetadataEntry(name, textKey, tablesKey)];
      } else if objects[metaKey].MetadataObject? {
        metadata := objects[metaKey].metadata;
      } else {
        return Err("JSONDecodeError");
      }
      metadata := metadata.(files := metadata.files + [MetadataEntry(name, textKey, tablesKey)]);
      objects := objects[metaKey := MetadataObject(metadata)];
      r := Ok(());
    }
  }

  /** The three result objects of a file have distinct keys, and the text key is the one the chunking messages name. */
  lemma ResultKeysDistinct(appId: string, jobId: string, fileName: string)
    ensures var textKey := ResultKey(appId, jobId, fileName, "extracted_text.json");
      textKey != ResultKey(appId, jobId, fileName, "extracted_tables.json") &&
      textKey != ResultKey(appId, jobId, fileName, "metadata.json") &&
      ResultKey(appId, jobId, fileName, "extracted_tables.json") != ResultKey(appId, jobId, fileName, "metadata.json") &&
      textKey == DP.ExtractedTextPath(appId, jobId, fileName)
  {
    var prefix := appId + "/" + jobId + "/" + fileName + "/";
    assert ResultKey(appId, jobId, fileName, "extracted_text.json") == prefix + "extracted_text.json";
    assert ResultKey(appId, jobId, fileName, "extracted_tables.json") == prefix + "extracted_tables.json";
    assert ResultKey(appId, jobId, fileName, "metadata.json") == prefix + "metadata.json";
    assert (prefix + "extracted_text.json")[|prefix| + 11] == 'e';
    assert (prefix + "extracted_tables.json")[|prefix| + 11] == 'a';
    assert (prefix + "extracted_text.json")[|prefix|] == 'e';
    assert (prefix + "metadata.json")[|prefix|] == 'm';
  }

  /** Saving the same file twice (a redelivered message) leaves the metadata with the same entry twice. */
  method SaveTwice(b: Bucket, doc: ExtractedDocument, appId: string, jobId: string, fileName: string)
    requires ResultKey(appId, jobId, Text.LastSegment(fileName, '/'), "metadata.json") !in b.objects
    modifies b
    ensures var name := Text.LastSegment(fileName, '/');
      var entry := MetadataEntry(name, ResultKey(appId, jobId, name, "extracted_text.json"), ResultKey(appId, jobId, name, "extracted_tables.json"));
      var metaKey := ResultKey(appId, jobId, name, "metadata.json");
      metaKey in b.objects && b.objects[metaKey] == MetadataObject(Metadata(jobId, [entry, entry]))
  {
    var name := Text.LastSegment(fileName, '/');
    var metaKey := ResultKey(appId, jobId, name, "metadata.json");
    var entry := MetadataEntry(name, ResultKey(appId, jobId, name, "extracted_text.json"), ResultKey(appId, jobId, name, "extracted_tables.json"));
    ResultKeysDistinct(appId, jobId, name);
    var r1 := b.S3Save(doc, appId, jobId, fileName);
    assert b.objects[metaKey] == MetadataObject(Metadata(jobId, [entry]));
    var r2 := b.S3Save(doc, appId, jobId, fileName);
    assert b.objects[metaKey] == MetadataObject(Metadata(jobId, [entry] + [entry]));
  }
}
