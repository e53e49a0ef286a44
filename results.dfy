/**
 * What the four retrieval strategies write for a search response: the walk over the results,
 * counting them, and the lines printed for each. A console line is modelled by its label and the
 * value it shows, not by its formatted text.
 */
module SearchResults {
  import opened Values

  /** A `CaptionResult`: extracted text and its highlighted form, either possibly null. */
  datatype Caption = Caption(text: Option<string>, highlights: Option<string>)

  /** An `AnswerResult` of the semantic ranker. */
  datatype Answer = Answer(text: Option<string>, highlights: Option<string>)

  /** A `SearchResult<SearchDocument>`: the document (possibly null), the scores and the captions. */
  datatype Hit = Hit(document: Option<Fields>, score: Option<real>, rerankerScore: Option<real>,
                     captions: Option<seq<Caption>>)

  /** A `SearchResults<SearchDocument>`: the query answers (null unless answers were requested) and the results. */
  datatype SearchResponse = SearchResponse(answers: Option<seq<Answer>>, hits: seq<Hit>)

  /** The exceptions a strategy can raise: a null dereference, a missing document key, a failed service call. */
  datatype Fault = NullReference | KeyNotFound(key: string) | RequestFailed(detail: string)

  datatype Label =
    | WholeDocument | Title | Score | RerankerScore | Content | Category
    | AnswerHighlights | AnswerText | CaptionHighlights | CaptionText

  /** What a labelled line shows: a document value, the document object, a score or a text. */
  datatype Shown = ShownValue(value: Value) | ShownDocument(document: Option<Fields>)
                 | ShownScore(score: Option<real>) | ShownText(text: Option<string>)

  /**
   * A console line: a fixed banner, a labelled value (`Result n - ` prefixed when numbered),
   * or the final `Total Results: n`.
   */
  datatype Line = Banner(text: string) | Item(resultNumber: Option<nat>, tag: Label, shown: Shown) | Total(count: nat)

  /** The lines written and, if one escaped, the exception that ended the strategy. */
  datatype Printed = Printed(lines: seq<Line>, fault: Option<Fault>)

  /** `SingleVectorSearch` numbers its lines; the filtered and hybrid searches do not; the semantic one adds captions. */
  datatype Layout = Numbered | Plain | Semantic

  const Separator: string := "----------------------------------------"
  const SemanticHeading: string := "Semantic Hybrid Search Results:"
  const AnswerHeading: string := "Query Answer:"

  // ---------------------------------------------------------------------------------------
  // One result.

  /** `result.Document[key]`: null document and missing key both throw. */
  function Lookup(document: Option<Fields>, key: string): Result<Value, Fault>
  {
    match document
    case None => Err(NullReference)
    case Some(d) => if key in d then Ok(d[key]) else Err(KeyNotFound(key))
  }

  /** One `Console.WriteLine` of a result: a line that cannot fail, or one that reads a document key. */
  datatype Step = Emit(line: Line) | Read(resultNumber: Option<nat>, tag: Label, key: string)

  /** The printing of a result's lines from step `i` on; a failing read ends it with the lines written so far. */
  function Run(document: Option<Fields>, steps: seq<Step>, i: nat): Printed
    decreases |steps| - i
  {
    if i >= |steps| then Printed([], None)
    else
      var first := match steps[i]
        case Emit(line) => Ok(line)
        case Read(n, tag, key) =>
          match Lookup(document, key)
          case Ok(v) => Ok(Item(n, tag, ShownValue(v)))
          case Err(f) => Err(f);
      match first
      case Err(f) => Printed([], Some(f))
      case Ok(line) =>
        var rest := Run(document, steps, i + 1);
        Printed([line] + rest.lines, rest.fault)
  }

  /** `string.IsNullOrEmpty`. */
  predicate NullOrEmpty(s: Option<string>)
  {
    s.None? || s.value == ""
  }

  /**
   * The caption line of a semantic result: from the first caption only, its highlights when they
   * are not null or empty, otherwise its text; no line when the captions are null or empty.
   */
  function CaptionLine(captions: Option<seq<Caption>>): Option<Line>
  {
    match captions
    case None => None
    case Some(cs) =>
      if |cs| == 0 then None
      else if !NullOrEmpty(cs[0].highlights) then Some(Item(None, CaptionHighlights, ShownText(cs[0].highlights)))
      else Some(Item(None, CaptionText, ShownText(cs[0].text)))
  }

  /** The writes of one loop iteration for result number `n`. */
  function HitSteps(layout: Layout, n: nat, hit: Hit): seq<Step>
  {
    match layout
    case Numbered =>
      [Emit(Banner(Separator)),
       Emit(Item(Some(n), WholeDocument, ShownDocument(hit.document))),
       Read(Some(n), Title, "title"),
       Emit(Item(Some(n), Score, ShownScore(hit.score))),
       Read(Some(n), Content, "content"),
       Read(Some(n), Category, "category")]
    case Plain =>
      [Read(None, Title, "title"),
       Emit(Item(None, Score, ShownScore(hit.score))),
       Read(None, Content, "content"),
       Read(None, Category, "category")]
    case Semantic =>
      [Read(None, Title, "title"),
       Emit(Item(None, RerankerScore, ShownScore(hit.rerankerScore))),
       Emit(Item(None, Score, ShownScore(hit.score))),
       Read(None, Content, "content"),
       Read(None, Category, "category")]
      + match CaptionLine(hit.captions) case None => [] case Some(line) => [Emit(line)]
  }

  /** What one iteration of a result loop prints for result number `n`. */
  function HitLines(layout: Layout, n: nat, hit: Hit): Printed
  {
    Run(hit.document, HitSteps(layout, n, hit), 0)
  }

  /** A result every layout can print: a document holding title, content and category. */
  predicate Presentable(hit: Hit)
  {
    hit.document.Some? && "title" in hit.document.value && "content" in hit.document.value
    && "category" in hit.document.value
  }

  /** The exception printing a result raises: null document first, then the first missing key in reading order. */
  function HitFault(document: Option<Fields>): Option<Fault>
  {
    match document
    case None => Some(NullReference)
    case Some(d) =>
      if "title" !in d then Some(KeyNotFound("title"))
      else if "content" !in d then Some(KeyNotFound("content"))
      else if "category" !in d then Some(KeyNotFound("category"))
      else None
  }

  predicate IsAnswerLabel(tag: Label)
  {
    tag == AnswerHighlights || tag == AnswerText
  }

  predicate IsCaptionLabel(tag: Label)
  {
    tag == CaptionHighlights || tag == CaptionText
  }

  /** A line printed for a query answer. */
  predicate IsAnswerLine(line: Line)
  {
    line.Item? && IsAnswerLabel(line.tag)
  }

  /** A line printed for a result: the separator or a labelled value of the result. */
  predicate IsResultLine(line: Line)
  {
    line.Banner? || (line.Item? && !IsAnswerLabel(line.tag))
  }

  /** A step that prints a result line. */
  predicate PrintsResultLine(step: Step)
  {
    match step
    case Emit(line) => IsResultLine(line)
    case Read(_, tag, _) => !IsAnswerLabel(tag)
  }

  /** The lines printed from step `i` on are result lines when every step prints one. */
  lemma {:induction false} RunResultLines(document: Option<Fields>, steps: seq<Step>, i: nat)
    requires forall j :: i <= j < |steps| ==> PrintsResultLine(steps[j])
    ensures forall line :: line in Run(document, steps, i).lines ==> IsResultLine(line)
    decreases |steps| - i
  {
    if i < |steps| {
      RunResultLines(document, steps, i + 1);
    }
  }

  /**
   * Printing a result raises exactly the exception `HitFault` names (none when it is presentable),
   * and writes nothing but result lines.
   */
  lemma HitOutcome(layout: Layout, n: nat, hit: Hit)
    ensures HitLines(layout, n, hit).fault == HitFault(hit.document)
    ensures HitFault(hit.document).None? <==> Presentable(hit)
    ensures forall line :: line in HitLines(layout, n, hit).lines ==> IsResultLine(line)
  {
    var s := HitSteps(layout, n, hit);
    var doc := hit.document;
    RunResultLines(doc, s, 0);
    // Naming the printing from every step on makes Dafny unfold `Run` once per step of the
    // literal step list; without these terms it stops after the first unfolding.
    var r := [Run(doc, s, 0), Run(doc, s, 1), Run(doc, s, 2), Run(doc, s, 3), Run(doc, s, 4), Run(doc, s, 5),
              Run(doc, s, 6), Run(doc, s, 7)];
  }

  // ---------------------------------------------------------------------------------------
  // The loop over all results.

  /**
   * Everything the result loop prints for `hits`: result number i (from 1) prints `HitLines`; the
   * first exception leaves the loop.
   */
  function Walk(layout: Layout, hits: seq<Hit>): Printed
  {
    if |hits| == 0 then Printed([], None)
    else
      var before := Walk(layout, hits[..|hits| - 1]);
      if before.fault.Some? then before
      else
        var last := HitLines(layout, |hits|, hits[|hits| - 1]);
        Printed(before.lines + last.lines, last.fault)
  }

  /** Position of the first result that is not presentable, or |hits| when all are. */
  function FirstBad(hits: seq<Hit>): (i: nat)
    ensures i <= |hits|
    ensures forall j :: 0 <= j < i ==> Presentable(hits[j])
    ensures i < |hits| ==> !Presentable(hits[i])
  {
    if |hits| == 0 then 0
    else if !Presentable(hits[0]) then 0
    else 1 + FirstBad(hits[1..])
  }

  /** The loop stops at the first result that is not presentable, with that result's exception. */
  lemma {:induction false} WalkFault(layout: Layout, hits: seq<Hit>)
    ensures Walk(layout, hits).fault ==
      if FirstBad(hits) < |hits| then HitFault(hits[FirstBad(hits)].document) else None
  {
    if |hits| > 0 {
      var init := hits[..|hits| - 1];
      WalkFault(layout, init);
      HitOutcome(layout, |hits|, hits[|hits| - 1]);
      assert forall j :: 0 <= j < |init| ==> init[j] == hits[j];
      if FirstBad(init) < |init| {
        assert FirstBad(hits) == FirstBad(init);
      } else {
        assert FirstBad(hits) >= |init|;
      }
    }
  }

  /** The loop prints nothing but result lines. */
  lemma {:induction false} WalkResultLines(layout: Layout, hits: seq<Hit>)
    ensures forall line :: line in Walk(layout, hits).lines ==> IsResultLine(line)
  {
    if |hits| > 0 {
      WalkResultLines(layout, hits[..|hits| - 1]);
      HitOutcome(layout, |hits|, hits[|hits| - 1]);
    }
  }

  /** Once an exception has left the loop, the remaining results change nothing. */
  lemma {:induction false} WalkStops(layout: Layout, hits: seq<Hit>, n: nat)
    requires n <= |hits|
    requires Walk(layout, hits[..n]).fault.Some?
    ensures Walk(layout, hits) == Walk(layout, hits[..n])
    decreases |hits|
  {
    if n < |hits| {
      var init := hits[..|hits| - 1];
      assert init[..n] == hits[..n];
      WalkStops(layout, init, n);
    } else {
      assert hits[..n] == hits;
    }
  }

  /**
   * A loop that has not stopped yet prints the next result after everything before it; if that
   * result throws, it is the first bad one and the loop's output is final.
   */
  lemma WalkStep(layout: Layout, hits: seq<Hit>, n: nat)
    requires n < |hits| && n <= FirstBad(hits) && Walk(layout, hits[..n]).fault.None?
    ensures var next := HitLines(layout, n + 1, hits[n]);
      && Walk(layout, hits[..n + 1]) == Printed(Walk(layout, hits[..n]).lines + next.lines, next.fault)
      && (next.fault.None? <==> n + 1 <= FirstBad(hits))
      && (next.fault.Some? ==> FirstBad(hits) == n && Walk(layout, hits) == Walk(layout, hits[..n + 1]))
  {
    assert hits[..n + 1][..n] == hits[..n];
    HitOutcome(layout, n + 1, hits[n]);
    if HitLines(layout, n + 1, hits[n]).fault.Some? {
      WalkStops(layout, hits, n + 1);
    }
  }

  /**
   * The `await foreach` over the results: `count` is incremented before a result is printed, so
   * when a result throws, `count` includes it.
   */
  method WalkResults(layout: Layout, hits: seq<Hit>) returns (count: nat, printed: Printed)
    ensures printed == Walk(layout, hits)
    ensures count == if printed.fault.None? then |hits| else FirstBad(hits) + 1
  {
    count := 0;
    printed := Printed([], None);
    while count < |hits|
      invariant count <= FirstBad(hits)
      invariant printed == Walk(layout, hits[..count])
      invariant printed.fault.None?
    {
      var result := hits[count];
      WalkStep(layout, hits, count);
      count := count + 1;
      var shown := HitLines(layout, count, result);
      printed := Printed(printed.lines + shown.lines, shown.fault);
      if shown.fault.Some? {
        return;
      }
    }
    assert hits[..count] == hits;
  }

  // ---------------------------------------------------------------------------------------
  // What a strategy prints for a response.

  /** The filtered, hybrid and numbered searches: the loop, then `Total Results: count` if nothing was thrown. */
  function PlainReport(layout: Layout, hits: seq<Hit>): Printed
  {
    var walked := Walk(layout, hits);
    if walked.fault.Some? then walked else Printed(walked.lines + [Total(|hits|)], None)
  }

  /** The two lines each query answer prints: its highlights, then its text. */
  function AnswerLines(answers: seq<Answer>): seq<Line>
  {
    if |answers| == 0 then []
    else
      var a := answers[|answers| - 1];
      AnswerLines(answers[..|answers| - 1])
        + [Item(None, AnswerHighlights, ShownText(a.highlights)), Item(None, AnswerText, ShownText(a.text))]
  }

  /**
   * `SemanticHybridSearch` from the response on: the two headings, the answers (iterating null
   * answers throws), the loop, and the total. A `NullReferenceException` is caught and reported as
   * `Total Results: 0`; any other exception escapes.
   */
  function SemanticReport(response: SearchResponse): Printed
  {
    var head := [Banner(SemanticHeading), Banner(AnswerHeading)];
    match response.answers
    case None => Printed(head + [Total(0)], None)
    case Some(answers) =>
      var walked := Walk(Semantic, response.hits);
      var lines := head + AnswerLines(answers) + walked.lines;
      match walked.fault
      case None => Printed(lines + [Total(|response.hits|)], None)
      case Some(NullReference) => Printed(lines + [Total(0)], None)
      case Some(f) => Printed(lines, Some(f))
  }

  /** A labelled line printed for a result (not the separator, not an answer). */
  predicate IsResultItem(line: Line)
  {
    line.Item? && !IsAnswerLabel(line.tag)
  }

  /**
   * The reported total is the number of results iterated and is printed exactly once, last; it is
   * printed exactly when every result is presentable, and otherwise the first bad result's
   * exception escapes. No results at all report a total of 0.
   */
  lemma PlainOutcome(layout: Layout, hits: seq<Hit>)
    ensures PlainReport(layout, hits).fault ==
      if FirstBad(hits) < |hits| then HitFault(hits[FirstBad(hits)].document) else None
    ensures PlainReport(layout, hits).fault.None? <==> forall j :: 0 <= j < |hits| ==> Presentable(hits[j])
    ensures var lines := PlainReport(layout, hits).lines;
      PlainReport(layout, hits).fault.None? ==>
        && |lines| > 0 && lines[|lines| - 1] == Total(|hits|)
        && forall i :: 0 <= i < |lines| - 1 ==> !lines[i].Total?
    ensures |hits| == 0 ==> PlainReport(layout, hits) == Printed([Total(0)], None)
  {
    WalkFault(layout, hits);
    WalkResultLines(layout, hits);
    var walked := Walk(layout, hits);
    assert forall i :: 0 <= i < |walked.lines| ==> walked.lines[i] in walked.lines;
  }

  /** Each answer prints its highlights line and then its text line, answers in order. */
  lemma {:induction false} AnswerLinesAt(answers: seq<Answer>)
    ensures |AnswerLines(answers)| == 2 * |answers|
    ensures forall i :: 0 <= i < |answers| ==>
      && AnswerLines(answers)[2 * i] == Item(None, AnswerHighlights, ShownText(answers[i].highlights))
      && AnswerLines(answers)[2 * i + 1] == Item(None, AnswerText, ShownText(answers[i].text))
  {
    if |answers| > 0 {
      AnswerLinesAt(answers[..|answers| - 1]);
    }
  }

  /** Every line `AnswerLines` prints is an answer line. */
  lemma {:induction false} AnswerLinesAreAnswers(answers: seq<Answer>)
    ensures forall line :: line in AnswerLines(answers) ==> IsAnswerLine(line)
  {
    if |answers| > 0 {
      AnswerLinesAreAnswers(answers[..|answers| - 1]);
    }
  }

  /**
   * Null answers, or a null document among the results, end the semantic search with
   * `Total Results: 0`; a missing key escapes; otherwise the total is the number of results.
   * Whenever the search ends normally its last line is the only total.
   */
  lemma SemanticOutcome(response: SearchResponse)
    ensures response.answers.None? ==>
      SemanticReport(response) == Printed([Banner(SemanticHeading), Banner(AnswerHeading), Total(0)], None)
    ensures var hits := response.hits; var report := SemanticReport(response);
      response.answers.Some? ==>
        if FirstBad(hits) == |hits| then report.fault.None? && report.lines[|report.lines| - 1] == Total(|hits|)
        else if hits[FirstBad(hits)].document.None? then
          report.fault.None? && report.lines[|report.lines| - 1] == Total(0)
        else report.fault == HitFault(hits[FirstBad(hits)].document) && report.fault.value.KeyNotFound?
    ensures var lines := SemanticReport(response).lines;
      SemanticReport(response).fault.None? ==> forall i :: 0 <= i < |lines| - 1 ==> !lines[i].Total?
  {
    WalkFault(Semantic, response.hits);
    WalkResultLines(Semantic, response.hits);
    if response.answers.Some? {
      var answers := response.answers.value;
      AnswerLinesAreAnswers(answers);
      var walked := Walk(Semantic, response.hits);
      var body := [Banner(SemanticHeading), Banner(AnswerHeading)] + AnswerLines(answers) + walked.lines;
      forall i | 0 <= i < |body| ensures !body[i].Total? {
        if i >= 2 + |AnswerLines(answers)| {
          assert body[i] in walked.lines;
        } else if i >= 2 {
          assert body[i] == AnswerLines(answers)[i - 2];
          assert body[i] in AnswerLines(answers);
        }
      }
    }
  }

  /** The semantic search prints every query answer before any labelled line of a result. */
  lemma SemanticAnswersFirst(response: SearchResponse)
    ensures var lines := SemanticReport(response).lines;
      forall i, j :: 0 <= i < |lines| && 0 <= j < |lines| && IsAnswerLine(lines[j]) && IsResultItem(lines[i]) ==> j < i
  {
    if response.answers.Some? {
      var answers := response.answers.value;
      AnswerLinesAreAnswers(answers);
      WalkResultLines(Semantic, response.hits);
      var walked := Walk(Semantic, response.hits);
      var front := [Banner(SemanticHeading), Banner(AnswerHeading)] + AnswerLines(answers);
      var lines := SemanticReport(response).lines;
      assert lines[..|front|] == front;
      forall i | |front| <= i < |lines| ensures !IsAnswerLine(lines[i]) {
        if i < |front| + |walked.lines| {
          assert lines[i] == walked.lines[i - |front|];
          assert lines[i] in walked.lines;
        }
      }
      forall i | 0 <= i < |front| ensures !IsResultItem(lines[i]) {
        assert lines[i] == front[i];
        if i >= 2 {
          assert front[i] == AnswerLines(answers)[i - 2];
          assert front[i] in AnswerLines(answers);
        }
      }
    }
  }

  /**
   * A semantic result prints its five labelled lines and then at most one caption line, which is
   * the one `CaptionLine` picks; no line before it is a caption.
   */
  lemma SemanticCaption(n: nat, hit: Hit)
    requires Presentable(hit)
    ensures var lines := HitLines(Semantic, n, hit).lines;
      && |lines| == 5 + (if CaptionLine(hit.captions).Some? then 1 else 0)
      && (forall i :: 0 <= i < 5 ==> !(lines[i].Item? && IsCaptionLabel(lines[i].tag)))
      && (CaptionLine(hit.captions).Some? ==> lines[5] == CaptionLine(hit.captions).value)
  {
    HitOutcome(Semantic, n, hit);
    var s := HitSteps(Semantic, n, hit);
    var doc := hit.document;
    // Naming the printing from every step on makes Dafny unfold `Run` once per step of the
    // literal step list; without these terms it stops after the first unfolding.
    var r := [Run(doc, s, 0), Run(doc, s, 1), Run(doc, s, 2), Run(doc, s, 3), Run(doc, s, 4), Run(doc, s, 5),
              Run(doc, s, 6)];
  }

  /**
   * Only the first caption matters; it gives its highlights when they are neither null nor empty
   * and its text otherwise; null or empty captions give no line.
   */
  lemma CaptionChoice(captions: Option<seq<Caption>>)
    ensures CaptionLine(captions).Some? <==> captions.Some? && |captions.value| > 0
    ensures CaptionLine(captions).Some? ==>
      var first := captions.value[0];
      && CaptionLine(captions) == CaptionLine(Some([first]))
      && (CaptionLine(captions).value.tag == CaptionHighlights <==> !NullOrEmpty(first.highlights))
      && CaptionLine(captions).value.shown ==
           ShownText(if NullOrEmpty(first.highlights) then first.text else first.highlights)
  {
  }

  /** The numbered and plain layouts never print a caption line. */
  lemma NoCaptionsOutsideSemantic(layout: Layout, n: nat, hit: Hit)
    requires layout != Semantic
    ensures forall line :: line in HitLines(layout, n, hit).lines ==> !(line.Item? && IsCaptionLabel(line.tag))
  {
    var s := HitSteps(layout, n, hit);
    var doc := hit.document;
    // Naming the printing from every step on makes Dafny unfold `Run` once per step of the
    // literal step list; without these terms it stops after the first unfolding.
    var r := [Run(doc, s, 0), Run(doc, s, 1), Run(doc, s, 2), Run(doc, s, 3), Run(doc, s, 4), Run(doc, s, 5),
              Run(doc, s, 6)];
  }

  // ---------------------------------------------------------------------------------------
  // The printing code of the strategies.

  /** The loop and the total of `SingleVectorSearch`, `SingleVectorSearchWithFilter` and `SimpleHybridSearch`. */
  method PresentResults(layout: Layout, hits: seq<Hit>) returns (printed: Printed)
    ensures printed == PlainReport(layout, hits)
  {
    var count, walked := WalkResults(layout, hits);
    if walked.fault.Some? {
      return walked;
    }
    printed := Printed(walked.lines + [Total(count)], None);
  }

  /** The printing of `SemanticHybridSearch` inside its `try`, with the `catch (NullReferenceException)`. */
  method PresentSemantic(response: SearchResponse) returns (printed: Printed)
    ensures printed == SemanticReport(response)
  {
    var lines := [Banner(SemanticHeading), Banner(AnswerHeading)];
    if response.answers.None? {
      return Printed(lines + [Total(0)], None);
    }
    var answers := response.answers.value;
    for i := 0 to |answers|
      invariant lines == [Banner(SemanticHeading), Banner(AnswerHeading)] + AnswerLines(answers[..i])
    {
      assert answers[..i + 1][..i] == answers[..i];
      lines := lines + [Item(None, AnswerHighlights, ShownText(answers[i].highlights)),
                        Item(None, AnswerText, ShownText(answers[i].text))];
    }
    assert answers[..|answers|] == answers;
    var count, walked := WalkResults(Semantic, response.hits);
    lines := lines + walked.lines;
    match walked.fault {
      case None =>
        printed := Printed(lines + [Total(count)], None);
      case Some(NullReference) =>
        printed := Printed(lines + [Total(0)], None);
      case Some(f) =>
        printed := Printed(lines, Some(f));
    }
  }
}
