/**
 * The upload → analyse → render → export workflow of the `Index` page
 * (src/pages/Index.tsx): the component's state, the event handlers that
 * change it, and the values derived from it for the chart, the word cloud,
 * the preview table and the CSV download.
 *
 * The network call is not modelled. What `fetch` and `response.json()`
 * deliver is an `Outcome` handed to the handler. JavaScript's `null` and
 * `undefined` are `None`, and each `x || y` is written out with the
 * truthiness rules for the value it tests.
 */
module IndexPage {
  import opened Wrappers
  import Api

  type byte = x: int | 0 <= x < 256

  /** A file picked or dropped by the user. */
  datatype File = File(name: string, content: seq<byte>)

  /** The `sentiment_counts` object of the service's reply; each count may be missing. */
  datatype SentimentCounts = SentimentCounts(positive: Option<int>, neutral: Option<int>, negative: Option<int>)

  /** One slice of the sentiment pie chart. */
  datatype ChartRecord = ChartRecord(name: string, value: int, fill: string)

  /** One row of the preview table: its columns, in key order, with their cell text. */
  type Row = seq<(string, string)>

  /** The `preview_data` member of the reply: missing, an array of rows, or any value that is not an array. */
  datatype PreviewField = Missing | Rows(rows: seq<Row>) | NotAnArray

  /** The decoded body of a successful reply; every member may be missing (`None`). */
  datatype Payload = Payload(
    summary: Option<string>,
    suggestions: Option<string>,
    csvData: Option<string>,
    wordcloudImage: Option<string>,
    sentimentCounts: Option<SentimentCounts>,
    previewData: PreviewField)

  /**
   * How one request ends: a successful reply decoded into a payload; a reply
   * whose status is not ok, with the `detail` of its error body (None when the
   * body is missing, not JSON or has no `detail`); or an exception thrown while
   * sending or decoding, with its `message`.
   */
  datatype Outcome = Ok(payload: Payload) | HttpError(detail: Option<string>) | Failure(message: Option<string>)

  /** The one request sent on a valid submit: its URL and the file in the multipart body. */
  datatype Request = Request(url: Api.Url, file: File)

  /** The file handed to the browser by the download button. */
  datatype Download = Download(name: string, content: string, mimeType: string)

  /** The component's state, field for field. */
  datatype View = View(
    dragActive: bool,
    file: Option<File>,
    textColumn: string,
    loading: bool,
    error: Option<string>,
    resultsVisible: bool,
    summary: string,
    suggestions: string,
    csvData: Option<string>,
    sentimentCounts: Option<SentimentCounts>,
    wordcloudImage: Option<string>,
    previewData: Option<seq<Row>>)

  /** The state of a freshly mounted page. */
  const InitialView: View := View(false, None, "", false, None, false, "", "", None, None, None, None)

  const ValidationMessage: string := "Silakan unggah file dan tentukan nama kolom teks."
  const ServerFallback: string := "Terjadi kesalahan pada server."
  const RequestFallback: string := "Gagal memproses permintaan."
  const SubmitPath: string := "/process_and_suggest"
  const TextColumnParam: string := "text_column"
  const ImagePrefix: string := "data:image/png;base64,"
  const ExportSuffix: string := "_sentimen.csv"
  const CsvMimeType: string := "text/csv;charset=utf-8;"
  /** The chart's categories, in slice order. */
  const Categories: seq<string> := ["positive", "neutral", "negative"]

  // ---------------------------------------------------------------------
  // JavaScript truthiness of the values the handlers test

  /** A string-or-nothing is truthy when present and not empty. */
  predicate Truthy(s: Option<string>) {
    s.Some? && s.value != ""
  }

  /** `(x || "").toString()` */
  function OrEmpty(s: Option<string>): string {
    if Truthy(s) then s.value else ""
  }

  /** `x || null` */
  function OrNull(s: Option<string>): Option<string> {
    if Truthy(s) then s else None
  }

  /** `count || 0`: a missing count is 0 (a count of 0 is falsy and stays 0). */
  function CountOrZero(c: Option<int>): int {
    if c.Some? && c.value != 0 then c.value else 0
  }

  // ---------------------------------------------------------------------
  // Values derived from the state

  /** The count the reply gave for one category. */
  function CountOf(c: SentimentCounts, category: string): Option<int> {
    if category == "positive" then c.positive
    else if category == "neutral" then c.neutral
    else if category == "negative" then c.negative
    else None
  }

  /**
   * `pieData`: no slices without counts; otherwise one slice per category,
   * in the fixed order, carrying that category's count or 0.
   */
  function PieData(counts: Option<SentimentCounts>): (slices: seq<ChartRecord>)
    ensures counts.None? <==> slices == []
    ensures counts.Some? ==> |slices| == |Categories| && forall i | 0 <= i < |slices| ::
      slices[i] == ChartRecord(Categories[i], CountOrZero(CountOf(counts.value, Categories[i])), "var(--color-" + Categories[i] + ")")
  {
    match counts
    case None => []
    case Some(c) =>
      [ ChartRecord("positive", CountOrZero(c.positive), "var(--color-positive)"),
        ChartRecord("neutral", CountOrZero(c.neutral), "var(--color-neutral)"),
        ChartRecord("negative", CountOrZero(c.negative), "var(--color-negative)") ]
  }

  /** The sum of the slices' values. */
  function Total(slices: seq<ChartRecord>): int {
    if slices == [] then 0 else slices[0].value + Total(slices[1..])
  }

  /** The chart shows the whole tally: its slices add up to the three counts, missing ones as 0. */
  lemma PieDataTotal(counts: Option<SentimentCounts>)
    ensures Total(PieData(counts)) ==
      if counts.None? then 0
      else CountOrZero(counts.value.positive) + CountOrZero(counts.value.neutral) + CountOrZero(counts.value.negative)
  {
    if counts.Some? {
      var s := PieData(counts);
      assert Total(s[2..]) == s[2].value + Total(s[3..]);
      assert Total(s[1..]) == s[1].value + Total(s[2..]);
    }
  }

  /**
   * The word-cloud image source: the PNG data-URI prefix followed by the
   * reply's base64 text, or nothing when the reply has none (or an empty one).
   */
  function WordcloudUri(image: Option<string>): (uri: Option<string>)
    ensures uri.Some? <==> Truthy(image)
    ensures uri.Some? ==> |ImagePrefix| <= |uri.value| && uri.value[..|ImagePrefix|] == ImagePrefix
    ensures uri.Some? ==> uri.value[|ImagePrefix|..] == image.value
  {
    if Truthy(image) then Some(ImagePrefix + image.value) else None
  }

  /** The preview guard: rows are kept only when the reply gave an array. */
  function PreviewRows(p: PreviewField): (rows: Option<seq<Row>>)
    ensures rows.Some? <==> p.Rows?
    ensures p.Rows? ==> rows.value == p.rows
  {
    if p.Rows? then Some(p.rows) else None
  }

  // ---------------------------------------------------------------------
  // Error messages

  /** The message thrown for a reply that is not ok: its `detail` when truthy, else the server fallback. */
  function ThrownMessage(detail: Option<string>): (message: string)
    ensures message != ""
    ensures Truthy(detail) ==> message == detail.value
    ensures !Truthy(detail) ==> message == ServerFallback
  {
    if Truthy(detail) then detail.value else ServerFallback
  }

  /** What the `catch` block shows: the exception's message when truthy, else the request fallback. */
  function CaughtMessage(message: Option<string>): (shown: string)
    ensures shown != ""
    ensures Truthy(message) ==> shown == message.value
    ensures !Truthy(message) ==> shown == RequestFallback
  {
    if Truthy(message) then message.value else RequestFallback
  }

  // ---------------------------------------------------------------------
  // Export file name

  predicate EndsWith(s: string, suffix: string) {
    |suffix| <= |s| && s[|s| - |suffix|..] == suffix
  }

  /** `name.replace(/\.csv$/, "")`: one trailing ".csv" (lower case) removed. */
  function StripCsvExtension(name: string): (stem: string)
    ensures EndsWith(name, ".csv") ==> name == stem + ".csv"
    ensures !EndsWith(name, ".csv") ==> stem == name
  {
    if EndsWith(name, ".csv") then name[..|name| - 4] else name
  }

  /** The name of the downloaded file for an upload called `name`. */
  function ExportName(name: string): (exported: string)
    ensures EndsWith(exported, ExportSuffix)
    ensures exported[..|exported| - |ExportSuffix|] == StripCsvExtension(name)
  {
    StripCsvExtension(name) + ExportSuffix
  }

  /** A name ending in ".csv" loses that one extension and gets the suffix. */
  lemma ExportNameReplacesExtension(stem: string)
    ensures ExportName(stem + ".csv") == stem + "_sentimen.csv"
  {
    assert EndsWith(stem + ".csv", ".csv") by {
      assert (stem + ".csv")[|stem|..] == ".csv";
    }
  }

  /** Any other name, ".CSV" included, is kept whole and gets the suffix. */
  lemma ExportNameKeepsOtherNames(name: string)
    requires !EndsWith(name, ".csv")
    ensures ExportName(name) == name + "_sentimen.csv"
  {
  }

  /** "reviews.csv" downloads as "reviews_sentimen.csv". */
  lemma ExportNameExampleWithExtension()
    ensures ExportName("reviews.csv") == "reviews_sentimen.csv"
  {
    var stem := "reviews";
    assert stem + ".csv" == "reviews.csv";
    ExportNameReplacesExtension(stem);
    assert stem + "_sentimen.csv" == "reviews_sentimen.csv";
  }

  /** "data" downloads as "data_sentimen.csv". */
  lemma ExportNameExampleWithoutExtension()
    ensures ExportName("data") == "data_sentimen.csv"
  {
    assert !EndsWith("data", ".csv") by {
      assert "data"[0] != ".csv"[0];
    }
    ExportNameKeepsOtherNames("data");
    assert "data" + "_sentimen.csv" == "data_sentimen.csv";
  }

  // ---------------------------------------------------------------------
  // Submit, as transitions of the state

  /** The validation of `handleSubmit`: a file and a non-empty column name (whitespace counts as non-empty). */
  predicate SubmitValid(v: View) {
    v.file.Some? && v.textColumn != ""
  }

  /** The part of `handleSubmit` that runs before the request is awaited. */
  function Begun(v: View): View {
    var cleared := v.(error := None);
    if !SubmitValid(v) then cleared.(error := Some(ValidationMessage))
    else cleared.(loading := true, resultsVisible := false)
  }

  /** The part of `handleSubmit` that runs once the request has ended, `finally` included. */
  function Finished(v: View, o: Outcome): View {
    var settled := match o
      case Ok(p) =>
        v.(summary := OrEmpty(p.summary),
           suggestions := OrEmpty(p.suggestions),
           csvData := OrNull(p.csvData),
           wordcloudImage := WordcloudUri(p.wordcloudImage),
           sentimentCounts := p.sentimentCounts,
           previewData := PreviewRows(p.previewData),
           resultsVisible := true)
      case HttpError(detail) => v.(error := Some(CaughtMessage(Some(ThrownMessage(detail)))))
      case Failure(message) => v.(error := Some(CaughtMessage(message)));
    settled.(loading := false)
  }

  /** One whole submit: rejected at validation, or begun and then finished with outcome `o`. */
  function Submitted(v: View, o: Outcome): View {
    if SubmitValid(v) then Finished(Begun(v), o) else Begun(v)
  }

  /** The request a submit sends, if any. */
  function SubmitRequest(v: View, host: Option<string>): (req: Option<Request>)
    ensures req.Some? <==> v.file.Some? && |v.textColumn| > 0
    ensures req.Some? ==> req.value.file == v.file.value
    ensures req.Some? ==> req.value.url == Api.Url(Api.ApiBase(host), "/process_and_suggest", [("text_column", v.textColumn)])
  {
    if SubmitValid(v) then
      var param := (TextColumnParam, v.textColumn);
      assert [param][1..] == [];
      assert Api.ApplyParams([], [param]) == Api.SetParam([], param.0, param.1) == [param];
      Some(Request(Api.Url(Api.ApiBase(host), SubmitPath, Api.ApplyParams([], [param])), v.file.value))
    else None
  }

  /** Without a file or with an empty column name: only the validation message changes, and nothing is sent. */
  lemma SubmitRejectsInvalid(v: View, o: Outcome, host: Option<string>)
    requires v.file.None? || v.textColumn == ""
    ensures Submitted(v, o) == v.(error := Some(ValidationMessage))
    ensures SubmitRequest(v, host).None?
  {
  }

  /** On valid input the request goes out with the error cleared, loading on and the old results hidden. */
  lemma BegunBeforeRequest(v: View)
    requires SubmitValid(v)
    ensures Begun(v) == v.(error := None, loading := true, resultsVisible := false)
  {
  }

  /** Every submit that got past validation ends with loading off; a rejected one leaves it as it was. */
  lemma SubmitEndsIdle(v: View, o: Outcome)
    ensures Submitted(v, o).loading == (v.loading && !SubmitValid(v))
  {
  }

  /** Submitting never changes the selection, the column name or the drag flag. */
  lemma SubmitKeepsInput(v: View, o: Outcome)
    ensures var w := Submitted(v, o);
      w.file == v.file && w.textColumn == v.textColumn && w.dragActive == v.dragActive
  {
  }

  /** A reply that is not ok: results stay hidden and unchanged, and the error is the body's detail or the server fallback. */
  lemma SubmitServerError(v: View, detail: Option<string>)
    requires SubmitValid(v)
    ensures var w := Submitted(v, HttpError(detail));
      w.error == Some(if Truthy(detail) then detail.value else ServerFallback) &&
      !w.resultsVisible && !w.loading &&
      w.summary == v.summary && w.suggestions == v.suggestions && w.csvData == v.csvData &&
      w.sentimentCounts == v.sentimentCounts && w.wordcloudImage == v.wordcloudImage &&
      w.previewData == v.previewData
  {
  }

  /** A thrown failure: results stay hidden and unchanged, and the error is its message or the request fallback. */
  lemma SubmitFailure(v: View, message: Option<string>)
    requires SubmitValid(v)
    ensures var w := Submitted(v, Failure(message));
      w.error == Some(if Truthy(message) then message.value else RequestFallback) &&
      !w.resultsVisible && !w.loading &&
      w.summary == v.summary && w.suggestions == v.suggestions && w.csvData == v.csvData &&
      w.sentimentCounts == v.sentimentCounts && w.wordcloudImage == v.wordcloudImage &&
      w.previewData == v.previewData
  {
  }

  /** A successful reply: every result field is decoded from the payload, no error is shown and the results are visible. */
  lemma SubmitSuccess(v: View, p: Payload)
    requires SubmitValid(v)
    ensures var w := Submitted(v, Ok(p));
      w.error == None && w.resultsVisible && !w.loading &&
      w.summary == (if p.summary.Some? then p.summary.value else "") &&
      w.suggestions == (if p.suggestions.Some? then p.suggestions.value else "") &&
      w.csvData == (if Truthy(p.csvData) then p.csvData else None) &&
      (w.wordcloudImage.Some? <==> Truthy(p.wordcloudImage)) &&
      (w.wordcloudImage.Some? ==> w.wordcloudImage.value == ImagePrefix + p.wordcloudImage.value) &&
      w.sentimentCounts == p.sentimentCounts &&
      w.previewData == (if p.previewData.Rows? then Some(p.previewData.rows) else None)
  {
  }

  /** A successful reply replaces the whole result: nothing from before the submit survives in it. */
  lemma SuccessSupersedes(v1: View, v2: View, p: Payload)
    requires SubmitValid(v1)
    requires v1.file == v2.file && v1.textColumn == v2.textColumn && v1.dragActive == v2.dragActive
    ensures Submitted(v1, Ok(p)) == Submitted(v2, Ok(p))
  {
  }

  /** Submitting twice with the same input and the same reply leaves the state of the first submit. */
  lemma SubmitIdempotent(v: View, o: Outcome)
    ensures Submitted(Submitted(v, o), o) == Submitted(v, o)
  {
    SubmitKeepsInput(v, o);
  }

  // ---------------------------------------------------------------------
  // The component

  /** The `Index` page component: its state fields and its event handlers. */
  class Index {
    /** The page's host name (None without a browser window), which fixes `API_BASE`. */
    const host: Option<string>

    var dragActive: bool
    var file: Option<File>
    var textColumn: string
    var loading: bool
    var error: Option<string>
    var resultsVisible: bool
    var summary: string
    var suggestions: string
    var csvData: Option<string>
    var sentimentCounts: Option<SentimentCounts>
    var wordcloudImage: Option<string>
    var previewData: Option<seq<Row>>

    /** The current state as a value. */
    function Snapshot(): View
      reads this
    {
      View(dragActive, file, textColumn, loading, error, resultsVisible,
           summary, suggestions, csvData, sentimentCounts, wordcloudImage, previewData)
    }

    /** Mounting the page: every `useState` at its initial value. */
    constructor (host: Option<string>)
      ensures this.host == host
      ensures Snapshot() == InitialView
    {
      this.host := host;
      dragActive := false;
      file := None;
      textColumn := "";
      loading := false;
      error := None;
      resultsVisible := false;
      summary := "";
      suggestions := "";
      csvData := None;
      sentimentCounts := None;
      wordcloudImage := None;
      previewData := None;
    }

    /** `onDragEnter` and `onDragOver`: only the drag flag is raised. */
    method OnDragHover()
      modifies this
      ensures Snapshot() == old(Snapshot()).(dragActive := true)
    {
      dragActive := true;
    }

    /** `onDragLeave`: only the drag flag is cleared. */
    method OnDragLeave()
      modifies this
      ensures Snapshot() == old(Snapshot()).(dragActive := false)
    {
      dragActive := false;
    }

    /** `onDrop`: the drag flag is always cleared; the file is replaced only by a first dropped file. */
    method OnDrop(files: seq<File>)
      modifies this
      ensures !dragActive
      ensures |files| > 0 ==> file == Some(files[0])
      ensures |files| == 0 ==> file == old(file)
      ensures Snapshot() == old(Snapshot()).(dragActive := false, file := file)
    {
      dragActive := false;
      if |files| > 0 {
        var dropped := files[0];
        file := Some(dropped);
      }
    }

    /** `onFileChange`: the file becomes the first picked file, or none when the list is missing or empty. */
    method OnFileChange(files: Option<seq<File>>)
      modifies this
      ensures file == (if files.Some? && |files.value| > 0 then Some(files.value[0]) else None)
      ensures Snapshot() == old(Snapshot()).(file := file)
    {
      var f: Option<File> := None;
      if files.Some? && |files.value| > 0 {
        f := Some(files.value[0]);
      }
      file := f;
    }

    /** The column input's `onChange`: the name is taken verbatim, the empty string included. */
    method OnTextColumnChange(value: string)
      modifies this
      ensures Snapshot() == old(Snapshot()).(textColumn := value)
    {
      textColumn := value;
    }

    /**
     * `handleSubmit` up to the request: clear the error, validate, then turn
     * loading on, hide the results and build the one request to send.
     */
    method BeginSubmit() returns (req: Option<Request>)
      modifies this
      ensures Snapshot() == Begun(old(Snapshot()))
      ensures req == SubmitRequest(old(Snapshot()), host)
    {
      error := None;
      if file.None? || textColumn == "" {
        error := Some(ValidationMessage);
        return None;
      }
      loading := true;
      resultsVisible := false;
      var url := Api.BuildUrl(host, Api.Target(SubmitPath, []), Some([(TextColumnParam, textColumn)]));
      req := Some(Request(url, file.value));
    }

    /** `handleSubmit` once the request has ended with outcome `o`, through `catch` and `finally`. */
    method CompleteSubmit(o: Outcome)
      modifies this
      ensures Snapshot() == Finished(old(Snapshot()), o)
    {
      match o {
        case Ok(results) =>
          summary := OrEmpty(results.summary);
          suggestions := OrEmpty(results.suggestions);
          csvData := OrNull(results.csvData);
          wordcloudImage := WordcloudUri(results.wordcloudImage);
          sentimentCounts := results.sentimentCounts;
          previewData := PreviewRows(results.previewData);
          resultsVisible := true;
        case HttpError(detail) =>
          var thrown := ThrownMessage(detail);
          error := Some(CaughtMessage(Some(thrown)));
        case Failure(message) =>
          error := Some(CaughtMessage(message));
      }
      loading := false;
    }

    /** One whole `handleSubmit`, the request ending with outcome `o` when one is sent. */
    method HandleSubmit(o: Outcome) returns (req: Option<Request>)
      modifies this
      ensures Snapshot() == Submitted(old(Snapshot()), o)
      ensures req == SubmitRequest(old(Snapshot()), host)
    {
      req := BeginSubmit();
      if req.Some? {
        CompleteSubmit(o);
      }
    }

    /**
     * `handleDownload`: nothing without CSV text or without a file; otherwise
     * the CSV text, named after the upload.
     */
    method HandleDownload() returns (d: Option<Download>)
      ensures d.Some? <==> Truthy(csvData) && file.Some?
      ensures d.Some? ==> d.value.content == csvData.value && d.value.mimeType == CsvMimeType
      ensures d.Some? ==> d.value.name == ExportName(file.value.name)
    {
      if !Truthy(csvData) || file.None? {
        return None;
      }
      var originalFilename := StripCsvExtension(file.value.name);
      d := Some(Download(originalFilename + ExportSuffix, csvData.value, CsvMimeType));
    }
  }
}
