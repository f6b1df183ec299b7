/** Google Docs helpers: pulling the document id out of a share URL, and flattening the
    Docs API JSON body into plain text. Fetching the document is I/O and not modelled. */
module DocLoader {
  import opened Wrappers
  import opened Text

  /** The path segment that precedes the id in a Docs URL (`.../document/d/<id>/edit`). */
  const DocPathMarker: string := "/d/"

  // ---------------------------------------------------------------------------
  // Document id

  /** `extract_doc_id`: the piece after the first "/d/", cut at its first '/';
      the URL itself when it holds no "/d/". Written as the two `split` calls. */
  function ExtractDocId(url: string): (id: string)
    ensures |id| <= |url|
    ensures FindFirst(url, DocPathMarker).None? ==> id == url
  {
    if FindFirst(url, DocPathMarker).Some? then Split(Split(url, DocPathMarker)[1], "/")[0]
    else url
  }

  /** `id` is the text at the start of `rest` up to, not including, its first '/',
      or all of `rest` when it holds no '/'. */
  predicate IsSegmentHead(rest: string, id: string) {
    && id <= rest
    && '/' !in id
    && (|id| == |rest| || rest[|id|] == '/')
  }

  /** A string has exactly one segment head, so the predicate pins the id down. */
  lemma SegmentHeadUnique(rest: string, a: string, b: string)
    requires IsSegmentHead(rest, a) && IsSegmentHead(rest, b)
    ensures a == b
  {
  }

  /** With a "/d/" in the URL, the id is the segment head of what follows the first
      "/d/": a slash-free run of the URL itself, read in place. */
  lemma ExtractDocIdAfterMarker(url: string)
    requires FindFirst(url, DocPathMarker).Some?
    ensures var k := FindFirst(url, DocPathMarker).value + |DocPathMarker|;
            var id := ExtractDocId(url);
            && k + |id| <= |url|
            && url[k..k + |id|] == id
            && IsSegmentHead(url[k..], id)
  {
    var i := FindFirst(url, DocPathMarker).value;
    var k := i + |DocPathMarker|;
    var rest := url[k..];
    var pieces := Split(url, DocPathMarker);
    assert pieces == [url[..i]] + Split(rest, DocPathMarker);
    var piece := pieces[1];
    assert piece == Split(rest, DocPathMarker)[0];
    PieceStopsAtSlash(rest);
    var id := Split(piece, "/")[0];
    HeadBeforeChar(piece, '/');
    assert id <= piece;
    if |id| < |piece| {
      assert rest[|id|] == piece[|id|];
    }
    assert IsSegmentHead(rest, id);
    assert url[k..k + |id|] == rest[..|id|];
  }

  /** The first piece of a split on "/d/" ends at the end of the string or right before
      the next "/d/", which starts with '/'. */
  lemma PieceStopsAtSlash(rest: string)
    ensures Split(rest, DocPathMarker)[0] <= rest
    ensures var n := |Split(rest, DocPathMarker)[0]|; n == |rest| || rest[n] == '/'
  {
    match FindFirst(rest, DocPathMarker)
    case None =>
    case Some(j) =>
      assert OccursAt(rest, DocPathMarker, j);
      assert rest[j..j + 3][0] == rest[j];
  }

  /** Extracting the id twice is the same as extracting it once, so a bare id may be
      pasted where a URL is expected. */
  lemma ExtractDocIdIdempotent(url: string)
    ensures ExtractDocId(ExtractDocId(url)) == ExtractDocId(url)
  {
    if FindFirst(url, DocPathMarker).Some? {
      ExtractDocIdAfterMarker(url);
      NoOccurrenceWithoutFirstChar(ExtractDocId(url), DocPathMarker);
    }
  }

  // ---------------------------------------------------------------------------
  // Docs API JSON body

  /** The parts of the Docs API document resource the text extraction reads. A key that
      may be absent is an `Option`. */
  datatype TextRun = TextRun(content: string)
  datatype ParagraphElement = ParagraphElement(textRun: Option<TextRun>)
  datatype Paragraph = Paragraph(elements: seq<ParagraphElement>)
  datatype StructuralElement = StructuralElement(paragraph: Option<Paragraph>)
  datatype Body = Body(content: Option<seq<StructuralElement>>)
  datatype Document = Document(body: Option<Body>)

  /** `document.get('body')` yields None and `.get` on it raises AttributeError. */
  datatype DocError = MissingBody

  /** `body.get('content', [])`. */
  function BodyContent(body: Body): seq<StructuralElement>
  {
    match body.content
    case Some(c) => c
    case None => []
  }

  /** The `content` strings of the text runs of one paragraph, in order. */
  function ParagraphRuns(elements: seq<ParagraphElement>): seq<string>
  {
    if |elements| == 0 then []
    else
      (match elements[0].textRun
       case Some(run) => [run.content]
       case None => [])
      + ParagraphRuns(elements[1..])
  }

  /** The text runs of one structural element: none unless it is a paragraph. */
  function ElementRuns(element: StructuralElement): seq<string>
  {
    match element.paragraph
    case Some(p) => ParagraphRuns(p.elements)
    case None => []
  }

  /** Every text run of the body, in document order: the list `text_parts` collects. */
  function TextRuns(content: seq<StructuralElement>): seq<string>
  {
    if |content| == 0 then [] else ElementRuns(content[0]) + TextRuns(content[1..])
  }

  /** The plain text of a body: its text runs joined with nothing in between. */
  function ContentText(content: seq<StructuralElement>): string
  {
    Concat(TextRuns(content))
  }

  lemma {:induction false} ParagraphRunsAppend(a: seq<ParagraphElement>, b: seq<ParagraphElement>)
    ensures ParagraphRuns(a + b) == ParagraphRuns(a) + ParagraphRuns(b)
    decreases |a|
  {
    if |a| == 0 {
      assert a + b == b;
    } else {
      assert (a + b)[1..] == a[1..] + b;
      ParagraphRunsAppend(a[1..], b);
    }
  }

  lemma {:induction false} TextRunsAppend(a: seq<StructuralElement>, b: seq<StructuralElement>)
    ensures TextRuns(a + b) == TextRuns(a) + TextRuns(b)
    decreases |a|
  {
    if |a| == 0 {
      assert a + b == b;
    } else {
      assert (a + b)[1..] == a[1..] + b;
      TextRunsAppend(a[1..], b);
    }
  }

  /** Extraction is a homomorphism: the text of two bodies laid end to end is the text
      of the first followed by the text of the second. */
  lemma ContentTextAppend(a: seq<StructuralElement>, b: seq<StructuralElement>)
    ensures ContentText(a + b) == ContentText(a) + ContentText(b)
  {
    TextRunsAppend(a, b);
    ConcatAppend(TextRuns(a), TextRuns(b));
  }

  /** An empty body has no text. */
  lemma ContentTextEmpty()
    ensures ContentText([]) == ""
  {
  }

  /** Structural elements that are not paragraphs (tables, section breaks, ...) and
      paragraphs whose elements carry no text run add nothing to the text. */
  lemma SilentElementContributesNothing(a: seq<StructuralElement>, e: StructuralElement, b: seq<StructuralElement>)
    requires e.paragraph.None? || forall k :: 0 <= k < |e.paragraph.value.elements| ==> e.paragraph.value.elements[k].textRun.None?
    ensures ContentText(a + [e] + b) == ContentText(a + b)
  {
    assert ElementRuns(e) == [] by {
      if e.paragraph.Some? {
        NoRunsNoText(e.paragraph.value.elements);
      }
    }
    assert TextRuns([e]) == ElementRuns(e) + TextRuns([]);
    TextRunsAppend(a, [e]);
    assert TextRuns(a + [e]) == TextRuns(a);
    TextRunsAppend(a + [e], b);
    TextRunsAppend(a, b);
    assert TextRuns(a + [e] + b) == TextRuns(a) + TextRuns(b);
    assert TextRuns(a + [e] + b) == TextRuns(a + b);
  }

  /** Inside a paragraph, a paragraph element that carries no text run (an inline
      object, a page break, ...) adds nothing to the text, wherever it sits. */
  lemma RunlessElementContributesNothing(
    a: seq<StructuralElement>, pa: seq<ParagraphElement>, pb: seq<ParagraphElement>, b: seq<StructuralElement>)
    ensures var with := StructuralElement(Some(Paragraph(pa + [ParagraphElement(None)] + pb)));
            var without := StructuralElement(Some(Paragraph(pa + pb)));
            ContentText(a + [with] + b) == ContentText(a + [without] + b)
  {
    var with := StructuralElement(Some(Paragraph(pa + [ParagraphElement(None)] + pb)));
    var without := StructuralElement(Some(Paragraph(pa + pb)));
    ParagraphRunsAppend(pa, [ParagraphElement(None)]);
    ParagraphRunsAppend(pa + [ParagraphElement(None)], pb);
    ParagraphRunsAppend(pa, pb);
    assert ParagraphRuns([ParagraphElement(None)]) == [] + ParagraphRuns([]);
    assert ElementRuns(with) == ElementRuns(without);
    assert TextRuns([with]) == ElementRuns(with) + TextRuns([]);
    assert TextRuns([without]) == ElementRuns(without) + TextRuns([]);
    TextRunsAppend(a, [with]);
    TextRunsAppend(a + [with], b);
    TextRunsAppend(a, [without]);
    TextRunsAppend(a + [without], b);
    assert TextRuns(a + [with] + b) == TextRuns(a + [without] + b);
  }

  lemma {:induction false} NoRunsNoText(elements: seq<ParagraphElement>)
    requires forall k :: 0 <= k < |elements| ==> elements[k].textRun.None?
    ensures ParagraphRuns(elements) == []
    decreases |elements|
  {
    if |elements| > 0 {
      NoRunsNoText(elements[1..]);
    }
  }

  /** The inner loop of `extract_text_from_doc`: append the content of each text run
      of one paragraph to the parts collected so far. */
  method AppendParagraphRuns(textParts: seq<string>, elements: seq<ParagraphElement>) returns (parts: seq<string>)
    ensures parts == textParts + ParagraphRuns(elements)
  {
    parts := textParts;
    var j := 0;
    while j < |elements|
      invariant 0 <= j <= |elements|
      invariant parts == textParts + ParagraphRuns(elements[..j])
    {
      if elements[j].textRun.Some? {
        parts := parts + [elements[j].textRun.value.content];
      }
      ParagraphRunsAppend(elements[..j], [elements[j]]);
      assert elements[..j + 1] == elements[..j] + [elements[j]];
      j := j + 1;
    }
    assert elements[..j] == elements;
  }

  /** `extract_text_from_doc`, loop for loop: walk the structural elements, descend into
      paragraphs, collect each text run's content, then join the collected parts. */
  method ExtractTextFromDoc(document: Document) returns (r: Result<string, DocError>)
    ensures document.body.None? <==> r == Failure(MissingBody)
    ensures document.body.Some? ==> r == Success(ContentText(BodyContent(document.body.value)))
  {
    if document.body.None? {
      return Failure(MissingBody);
    }
    var content := BodyContent(document.body.value);
    var textParts: seq<string> := [];
    var i := 0;
    while i < |content|
      invariant 0 <= i <= |content|
      invariant textParts == TextRuns(content[..i])
    {
      var element := content[i];
      if element.paragraph.Some? {
        textParts := AppendParagraphRuns(textParts, element.paragraph.value.elements);
      }
      assert TextRuns([element]) == ElementRuns(element) + TextRuns([]);
      TextRunsAppend(content[..i], [element]);
      assert content[..i + 1] == content[..i] + [element];
      i := i + 1;
    }
    assert content[..i] == content;
    r := Success(Concat(textParts));
  }
}
