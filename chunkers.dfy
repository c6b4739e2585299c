/**
 * The page-wise and JSON chunkers.  Their input is the extracted-text
 * document: a dictionary that may hold a "pages" list whose entries may hold
 * a "page_text".  Every chunk is a dictionary with the single key "chunk".
 */
module Chunkers {
  import Text
  import opened Wrappers

  /** One page entry; page_text may be absent. */
  datatype Page = Page(pageText: Option<string>)

  /** The extracted-text document; the "pages" key may be absent. */
  datatype Content = Content(pages: Option<seq<Page>>)

  /** A chunk: the dictionary {"chunk": text}. */
  datatype Chunk = Chunk(chunk: string)

  /** content.get('pages', []) */
  function PagesOf(content: Content): seq<Page>
  {
    if content.pages.Some? then content.pages.value else []
  }

  /** page.get('page_text', '') */
  function PageText(page: Page): string
  {
    if page.pageText.Some? then page.pageText.value else ""
  }

  /** The texts of a list of chunks. */
  function Texts(chunks: seq<Chunk>): (r: seq<string>)
    ensures |r| == |chunks| && forall i :: 0 <= i < |chunks| ==> r[i] == chunks[i].chunk
  {
    if chunks == [] then [] else Texts(chunks[..|chunks| - 1]) + [chunks[|chunks| - 1].chunk]
  }

  /** PagewiseChunker.chunk: exactly one chunk per page, in page order; a page without text gives "". */
  method PagewiseChunk(content: Content) returns (chunks: seq<Chunk>)
    ensures |chunks| == |PagesOf(content)|
    ensures forall i :: 0 <= i < |chunks| ==> chunks[i] == Chunk(PageText(PagesOf(content)[i]))
    ensures content.pages.None? ==> chunks == []
  {
    var pages := PagesOf(content);
    chunks := [];
    for i := 0 to |pages|
      invariant |chunks| == i
      invariant forall j :: 0 <= j < i ==> chunks[j] == Chunk(PageText(pages[j]))
    {
      chunks := chunks + [Chunk(PageText(pages[i]))];
    }
  }

  /**
   * JSONChunker.chunk_jsonl: one chunk per '\n'-separated line of the first page's text,
   * empty lines included.  Without a first page it raises IndexError (an Err here).
   */
  method JsonlChunk(content: Content) returns (r: Result<seq<Chunk>, string>)
    ensures r.Err? <==> PagesOf(content) == []
    ensures r.Ok? ==> Texts(r.value) == Text.Split(PageText(PagesOf(content)[0]), '\n')
  {
    var pages := PagesOf(content);
    if |pages| == 0 {
      return Err("IndexError: list index out of range");
    }
    var jsonContent := PageText(pages[0]);
    var lines := Text.Split(jsonContent, '\n');
    var chunks := [];
    for i := 0 to |lines|
      invariant Texts(chunks) == lines[..i]
    {
      assert lines[..i + 1] == lines[..i] + [lines[i]];
      chunks := chunks + [Chunk(lines[i])];
    }
    assert lines[..|lines|] == lines;
    r := Ok(chunks);
  }

  /**
   * The jsonl chunks of a text are its lines: there is one more chunk than there are
   * newlines, no chunk holds a newline, and joining them with '\n' gives the text back.
   */
  lemma JsonlLines(text: string, chunks: seq<Chunk>)
    requires Texts(chunks) == Text.Split(text, '\n')
    ensures |chunks| == Text.Count(text, '\n') + 1
    ensures forall i :: 0 <= i < |chunks| ==> '\n' !in chunks[i].chunk
    ensures Text.Join(Texts(chunks), '\n') == text
  {
    Text.SplitPieces(text, '\n');
    Text.JoinSplit(text, '\n');
    forall i | 0 <= i < |chunks| ensures '\n' !in chunks[i].chunk {
      assert chunks[i].chunk == Text.Split(text, '\n')[i];
    }
  }

  /** What the JSON splitter (a foreign library) made of the first page's text. */
  datatype JsonSplit = ParseError | Pieces(pieces: seq<string>)

  /**
   * JSONChunker.chunk_json: every error (no first page, text that does not parse) is caught
   * and the method returns None; otherwise one chunk per piece of the splitter, in order.
   */
  method JsonChunk(content: Content, split: JsonSplit) returns (r: Option<seq<Chunk>>)
    ensures r.None? <==> PagesOf(content) == [] || split.ParseError?
    ensures r.Some? ==> Texts(r.value) == split.pieces
  {
    var pages := PagesOf(content);
    if |pages| == 0 || split.ParseError? {
      return None;
    }
    var chunks := [];
    for i := 0 to |split.pieces|
      invariant Texts(chunks) == split.pieces[..i]
    {
      assert split.pieces[..i + 1] == split.pieces[..i] + [split.pieces[i]];
      chunks := chunks + [Chunk(split.pieces[i])];
    }
    assert split.pieces[..|split.pieces|] == split.pieces;
    r := Some(chunks);
  }
}
