/**
 * The founder's pitch upload: the form schema, the check of the chosen file, the storage path of an
 * upload, and the submission that stores the file, records a `processing` analysis row, runs the
 * `analyze-pitch` function and completes the row with its answer.
 *
 * Every call into the hosted backend (storage upload, the startup query, the insert, the function
 * invocation and the update), the clock, `File.text()` and `URL.createObjectURL` are inputs: their
 * outcomes are gathered in an `Oracles` value.
 */
module PitchUpload {

  import opened Common
  import opened Js
  import opened Records
  import opened AnalyzePitch

  // ---------------------------------------------------------------------------------------------
  // The form schema
  // ---------------------------------------------------------------------------------------------

  datatype PitchForm = PitchForm(title: string, description: string, category: string, requiredAmount: string)

  /** The form's default values, which `form.reset()` restores. */
  const EMPTY_FORM: PitchForm := PitchForm("", "", "", "")

  /** The bounds of the form schema: a title of 1 to 200 characters, a description of 10 to 1000,
      and a non-empty category and required amount. */
  predicate FormValid(v: PitchForm)
    ensures FormValid(v) ==> v.title != [] && v.description != [] && v.category != [] && v.requiredAmount != []
  {
    && 1 <= |v.title| <= 200
    && 10 <= |v.description| <= 1000
    && |v.category| >= 1
    && |v.requiredAmount| >= 1
  }

  /** One failed check of the schema. */
  datatype FieldError =
    | TitleRequired
    | TitleTooLong
    | DescriptionTooShort
    | DescriptionTooLong
    | CategoryRequired
    | AmountRequired

  /** The checks that fail, in the order the schema declares its fields. */
  function FieldErrors(v: PitchForm): (errs: seq<FieldError>)
    ensures errs == [] <==> FormValid(v)
    ensures TitleRequired in errs <==> v.title == []
    ensures TitleTooLong in errs <==> |v.title| > 200
    ensures DescriptionTooShort in errs <==> |v.description| < 10
    ensures DescriptionTooLong in errs <==> |v.description| > 1000
    ensures CategoryRequired in errs <==> v.category == []
    ensures AmountRequired in errs <==> v.requiredAmount == []
  {
    LengthErrors(v.title, 1, 200, TitleRequired, TitleTooLong)
    + LengthErrors(v.description, 10, 1000, DescriptionTooShort, DescriptionTooLong)
    + RequiredErrors(v.category, CategoryRequired)
    + RequiredErrors(v.requiredAmount, AmountRequired)
  }

  /** The check of a required string field. */
  function RequiredErrors(field: string, missing: FieldError): (errs: seq<FieldError>)
    ensures errs == [] <==> field != []
    ensures errs == [missing] || errs == []
  {
    if field == [] then [missing] else []
  }

  /** The checks of one string field: `tooShort` below `min` characters, `tooLong` above `max`. */
  function LengthErrors(field: string, min: nat, max: nat, tooShort: FieldError, tooLong: FieldError): (errs: seq<FieldError>)
    requires min <= max && tooShort != tooLong
    ensures errs == [] <==> min <= |field| <= max
    ensures errs == [tooShort] || errs == [tooLong] || errs == []
    ensures errs == [tooShort] <==> |field| < min
    ensures errs == [tooLong] <==> |field| > max
  {
    if |field| < min then [tooShort] else if |field| > max then [tooLong] else []
  }

  // ---------------------------------------------------------------------------------------------
  // The chosen file
  // ---------------------------------------------------------------------------------------------

  const PDF_TYPE: string := "application/pdf"
  const DOCX_TYPE: string := "application/vnd.openxmlformats-officedocument.wordprocessingml.document"
  const TEXT_TYPE: string := "text/plain"
  const ALLOWED_TYPES: seq<string> := [PDF_TYPE, DOCX_TYPE, TEXT_TYPE]

  /** 10 MiB, the largest accepted size in bytes. */
  const MAX_FILE_SIZE: nat := 10 * 1024 * 1024

  /** A `File` as the form sees it: its name, its MIME type and its size in bytes. */
  datatype PitchFile = PitchFile(name: string, mimeType: string, size: nat)

  datatype FileVerdict = WrongType | TooLarge | Accepted

  /** The file check of the file input: the type is checked first, then the size. */
  function CheckFile(f: PitchFile): (v: FileVerdict)
    ensures v == Accepted <==>
      (f.mimeType == PDF_TYPE || f.mimeType == DOCX_TYPE || f.mimeType == TEXT_TYPE) && f.size <= 10485760
    ensures v == WrongType <==> f.mimeType !in ALLOWED_TYPES
  {
    if f.mimeType !in ALLOWED_TYPES then WrongType
    else if f.size > MAX_FILE_SIZE then TooLarge
    else Accepted
  }

  /** A file of exactly 10 MiB passes; one byte more is too large; a file of the wrong type is refused
      as such whatever its size. */
  lemma SizeLimitInclusive(name: string, mimeType: string, size: nat)
    ensures CheckFile(PitchFile(name, PDF_TYPE, MAX_FILE_SIZE)) == Accepted
    ensures CheckFile(PitchFile(name, TEXT_TYPE, MAX_FILE_SIZE + 1)) == TooLarge
    ensures mimeType !in ALLOWED_TYPES ==> CheckFile(PitchFile(name, mimeType, size)) == WrongType
  {
  }

  // ---------------------------------------------------------------------------------------------
  // The storage path
  // ---------------------------------------------------------------------------------------------

  /** The object name of an upload: the user's folder, the startup's folder, then the upload time in
      milliseconds and the file's own name. */
  function StoragePath(userId: string, startupId: string, millis: nat, fileName: string): (r: string)
    ensures |r| > |userId| + |startupId| + |fileName| + 2
    ensures r[..|userId|] == userId && r[|userId|] == '/'
    ensures r[|userId| + 1..|userId| + 1 + |startupId|] == startupId && r[|userId| + 1 + |startupId|] == '/'
    ensures r[|r| - |fileName|..] == fileName
  {
    userId + "/" + startupId + "/" + NatToString(millis) + "-" + fileName
  }

  datatype PathParts = PathParts(userId: string, startupId: string, millis: nat, fileName: string)

  /** The text before and after the first `c`, as `indexOf` finds it. */
  function SplitOnce(p: string, c: char): (r: Option<(string, string)>)
    ensures r.Some? ==> c !in r.value.0 && p == r.value.0 + [c] + r.value.1
  {
    match IndexOf(p, c)
    case None => None
    case Some(i) => assert p == p[..i] + [c] + p[i + 1..]; Some((p[..i], p[i + 1..]))
  }

  /** Splitting at the first `c` of `prefix + [c] + rest`, where `prefix` has no `c`, gives back
      `prefix` and `rest`. */
  lemma SplitAtFirst(prefix: string, c: char, rest: string)
    requires c !in prefix
    ensures SplitOnce(prefix + [c] + rest, c) == Some((prefix, rest))
  {
    var p := prefix + [c] + rest;
    assert p[..|prefix|] == prefix;
    IndexOfFirst(p, c, |prefix|);
    assert p[|prefix| + 1..] == rest;
  }

  /** Reads a storage path back into its parts: the text up to the first '/', up to the next '/',
      the digits up to the first '-', and the rest. */
  function SplitStoragePath(p: string): Option<PathParts> {
    match SplitOnce(p, '/')
    case None => None
    case Some((userId, rest)) =>
      match SplitOnce(rest, '/')
      case None => None
      case Some((startupId, tail)) =>
        match SplitOnce(tail, '-')
        case None => None
        case Some((digits, fileName)) =>
          if digits != [] && AllDigits(digits)
          then Some(PathParts(userId, startupId, DecimalValue(digits), fileName))
          else None
  }

  /** A storage path determines the user, the startup, the time and the file name it was built from,
      as long as the two identifiers contain no '/' (the file name may contain anything). */
  lemma StoragePathRoundTrip(userId: string, startupId: string, millis: nat, fileName: string)
    requires '/' !in userId && '/' !in startupId
    ensures SplitStoragePath(StoragePath(userId, startupId, millis, fileName))
            == Some(PathParts(userId, startupId, millis, fileName))
  {
    var digits := NatToString(millis);
    var tail := digits + "-" + fileName;
    var rest := startupId + "/" + tail;
    assert StoragePath(userId, startupId, millis, fileName) == userId + ['/'] + rest;
    SplitAtFirst(userId, '/', rest);
    assert rest == startupId + ['/'] + tail;
    SplitAtFirst(startupId, '/', tail);
    assert '-' !in digits by {
      assert forall m :: 0 <= m < |digits| ==> IsDigit(digits[m]);
    }
    assert tail == digits + ['-'] + fileName;
    SplitAtFirst(digits, '-', fileName);
    DecimalRoundTrip(millis);
  }

  /** Two uploads get the same path only when user, startup, time and file name all agree. */
  lemma StoragePathInjective(u1: string, s1: string, m1: nat, f1: string, u2: string, s2: string, m2: nat, f2: string)
    requires '/' !in u1 && '/' !in s1 && '/' !in u2 && '/' !in s2
    requires StoragePath(u1, s1, m1, f1) == StoragePath(u2, s2, m2, f2)
    ensures u1 == u2 && s1 == s2 && m1 == m2 && f1 == f2
  {
    StoragePathRoundTrip(u1, s1, m1, f1);
    StoragePathRoundTrip(u2, s2, m2, f2);
  }

  // ---------------------------------------------------------------------------------------------
  // The analysis request and its answer
  // ---------------------------------------------------------------------------------------------

  /** The `startups` columns the submission reads. */
  datatype Startup = Startup(name: string, domain: string, description: string)

  /** The lines of the analysis request: the startup's name and description, then the document. */
  function PitchBody(s: Startup, fileText: string): string {
    "Startup: " + s.name + "\nDescription: " + s.description + "\n\nPitch Document:\n" + fileText
  }

  /** The template's indentation before its closing backtick. */
  const TEMPLATE_TAIL: string := "\n      "

  /** The text sent for analysis: the template (which opens with a newline) trimmed. Since the lines
      open with a visible character, trimming takes the template's newline and indentation and
      whatever whitespace the lines themselves end in, and nothing else. */
  function PitchContent(s: Startup, fileText: string): (r: string)
    ensures r == TrimEnd(PitchBody(s, fileText))
  {
    TemplateTrim(PitchBody(s, fileText));
    Trim("\n" + PitchBody(s, fileText) + TEMPLATE_TAIL)
  }

  /** Trimming a text that opens with a visible character, framed by a newline and the template's
      indentation, leaves the text with its trailing whitespace removed. */
  lemma TemplateTrim(body: string)
    requires body != [] && !IsWhitespace(body[0])
    ensures Trim("\n" + body + TEMPLATE_TAIL) == TrimEnd(body)
  {
    var rest := body + TEMPLATE_TAIL;
    var t := "\n" + rest;
    assert t[1..] == rest && IsWhitespace(t[0]);
    assert rest[0] == body[0];
    assert TrimStart(rest) == rest;
    assert TrimStart(t) == rest;
    assert t == "\n" + body + TEMPLATE_TAIL;
    TailIsWhitespace();
    TrimEndIgnoresWhitespaceSuffix(body, TEMPLATE_TAIL);
  }

  lemma TailIsWhitespace()
    ensures forall i :: 0 <= i < |TEMPLATE_TAIL| ==> IsWhitespace(TEMPLATE_TAIL[i])
  {
  }

  /** When the document ends in a visible character, trimming removes only the template's own
      leading newline and trailing indentation. */
  lemma PitchContentKeepsDocument(s: Startup, fileText: string)
    requires fileText != [] && !IsWhitespace(fileText[|fileText| - 1])
    ensures PitchContent(s, fileText) == PitchBody(s, fileText)
  {
    var body := PitchBody(s, fileText);
    assert body[|body| - 1] == fileText[|fileText| - 1];
    assert body + [] == body;
    TrimEndDropsWhitespaceSuffix(body, []);
  }

  /** How the client sees the function invocation: no answer at all, or the function's response. */
  datatype Invocation = Unreachable | Delivered(response: Response)

  /** The `data` of `functions.invoke`, or `None` when it reports an error, which it does for every
      non-2xx status and when the function cannot be reached. A 2xx answer without a JSON body
      yields its (empty) text. */
  function InvokeData(inv: Invocation): (d: Option<Json>)
    ensures d.Some? <==> inv.Delivered? && 200 <= inv.response.status <= 299
    ensures d.Some? && inv.response.body.Some? ==> d.value == inv.response.body.value
  {
    match inv
    case Unreachable => None
    case Delivered(resp) =>
      if IsOk(resp.status) then Some(if resp.body.Some? then resp.body.value else JString(""))
      else None
  }

  /** The value of an integer column in the answer; a missing, null or non-numeric value leaves the
      column null. */
  function IntField(data: Json, key: string): Option<int> {
    match Lookup(data, key)
    case Some(JNumber(n)) => Some(n)
    case _ => None
  }

  function TextField(data: Json, key: string): Option<string> {
    match Lookup(data, key)
    case Some(JString(t)) => Some(t)
    case _ => None
  }

  /** The strings of an array whose every item is a string. */
  function Texts(items: seq<Json>): (r: Option<seq<string>>)
    ensures r.Some? <==> forall i :: 0 <= i < |items| ==> items[i].JString?
    ensures r.Some? ==> |r.value| == |items| && forall i :: 0 <= i < |items| ==> r.value[i] == items[i].s
  {
    if items == [] then Some([])
    else if !items[0].JString? then None
    else
      match Texts(items[1..])
      case None => None
      case Some(rest) => Some([items[0].s] + rest)
  }

  function TextListField(data: Json, key: string): Option<seq<string>> {
    match Lookup(data, key)
    case Some(JArray(items)) => Texts(items)
    case _ => None
  }

  /** The columns the update writes from the function's answer. Reading a field of `null` throws, so a
      null answer yields `None`; any other value that is not an object has no such fields and
      leaves every column null. */
  function ReportOf(data: Json): (r: Option<Report>)
    ensures r.None? <==> data.JNull?
    ensures !data.JObject? && !data.JNull? ==> r == Some(NO_REPORT)
    ensures r.Some? ==> r.value == ReportFields(data)
  {
    if data.JNull? then None else Some(ReportFields(data))
  }

  /** Every score and insight column as the answer gives it. */
  function ReportFields(data: Json): Report {
      Report(
        IntField(data, "market_size_score"),
        IntField(data, "team_strength_score"),
        IntField(data, "product_viability_score"),
        IntField(data, "financial_health_score"),
        IntField(data, "competitive_advantage_score"),
        IntField(data, "overall_score"),
        TextListField(data, "key_strengths"),
        TextListField(data, "key_concerns"),
        TextField(data, "market_insights"),
        TextField(data, "team_analysis"),
        TextField(data, "financial_summary"),
        TextListField(data, "risk_factors"),
        TextField(data, "investment_recommendation"))
  }

  /** The fallback analysis is recorded with an overall score of 67 and a "Hold" recommendation. */
  lemma FallbackReport()
    ensures ReportOf(Fallback()).Some?
    ensures ReportOf(Fallback()).value.overall == Some(67)
    ensures ReportOf(Fallback()).value.recommendation == Some("Hold")
  {
    FallbackFinancialCompetitiveOverall();
    FallbackRecommendationAndStrengths();
    var f := Fallback();
    assert ReportFields(f).overall == IntField(f, "overall_score");
    assert ReportFields(f).recommendation == TextField(f, "investment_recommendation");
  }

  // ---------------------------------------------------------------------------------------------
  // The submission
  // ---------------------------------------------------------------------------------------------

  /** The outcome of the insert: the new row's id and its `uploaded_at` default, or a failure. */
  datatype Insertion = InsertFailed | InsertedRow(id: string, uploadedAt: int)

  /** The outcomes of everything the submission calls, in the order it calls them. */
  datatype Oracles = Oracles(
    millis: nat,             // Date.now()
    uploadOk: bool,          // the storage upload reported no error
    startup: Option<Startup>,
    insertion: Insertion,
    invocation: Invocation,
    updateOk: bool)          // the update reported no error

  /** The row the submission inserts: the form's values, the file's name and path, status `processing`. */
  function NewRow(values: PitchForm, file: PitchFile, path: string, startupId: string, id: string, uploadedAt: int): PitchAnalysis {
    PitchAnalysis(id, startupId, file.name, path, Some(values.title), Some(values.description),
                  Some(values.category), Some(values.requiredAmount), PROCESSING, uploadedAt, NO_REPORT)
  }

  /** What a submission leaves behind: the stored paths, the analysis table, and whether it succeeded. */
  datatype Submission = Submission(storage: set<string>, analyses: map<string, PitchAnalysis>, completed: bool)

  /** The effect of a submission on the backend. Each step runs only when the steps before it
      succeeded; the first failure ends the submission and leaves what was done so far in place. */
  function Submit(values: PitchForm, file: PitchFile, userId: string, startupId: string, o: Oracles,
                  storage: set<string>, analyses: map<string, PitchAnalysis>): (r: Submission)
    ensures storage <= r.storage && analyses.Keys <= r.analyses.Keys
    ensures r.completed ==>
      && Uploads(o, StoragePath(userId, startupId, o.millis, file.name), storage)
      && StoragePath(userId, startupId, o.millis, file.name) in r.storage
      && Inserts(o, analyses) && o.updateOk
      && o.insertion.id in r.analyses && r.analyses[o.insertion.id].status == COMPLETED
      && AnsweredReport(o.invocation).Some? && r.analyses[o.insertion.id].report == AnsweredReport(o.invocation).value
  {
    var path := StoragePath(userId, startupId, o.millis, file.name);
    if !Uploads(o, path, storage) then Submission(storage, analyses, false)
    else
      var stored := storage + {path};
      if o.startup.None? || !Inserts(o, analyses) then Submission(stored, analyses, false)
      else
        var row := NewRow(values, file, path, startupId, o.insertion.id, o.insertion.uploadedAt);
        Analyze(row, o, stored, analyses[row.id := row])
  }

  /** The upload succeeds: storage reports no error, and no object has the path yet (the upload does
      not ask to overwrite, so an existing object makes it fail). */
  predicate Uploads(o: Oracles, path: string, storage: set<string>) {
    o.uploadOk && path !in storage
  }

  /** The insert adds a row: it reports no error, and the id it generates is not taken (a taken id
      violates the primary key, so the insert fails). */
  predicate Inserts(o: Oracles, analyses: map<string, PitchAnalysis>) {
    o.insertion.InsertedRow? && o.insertion.id !in analyses
  }

  /** The answer's report, when the invocation succeeded and its answer can be read. */
  function AnsweredReport(inv: Invocation): Option<Report> {
    match InvokeData(inv)
    case None => None
    case Some(data) => ReportOf(data)
  }

  /** The steps after the insert: the invocation, then the update that completes `row`. */
  function Analyze(row: PitchAnalysis, o: Oracles, storage: set<string>, analyses: map<string, PitchAnalysis>): (r: Submission)
    ensures r.storage == storage
    ensures r.completed <==> AnsweredReport(o.invocation).Some? && o.updateOk
    ensures !r.completed ==> r.analyses == analyses
    ensures r.completed ==> row.id in r.analyses && r.analyses[row.id].status == COMPLETED
    ensures r.completed ==>
      r.analyses == analyses[row.id := row.(status := COMPLETED, report := AnsweredReport(o.invocation).value)]
  {
    var report := AnsweredReport(o.invocation);
    if report.None? || !o.updateOk then Submission(storage, analyses, false)
    else Submission(storage, analyses[row.id := row.(status := COMPLETED, report := report.value)], true)
  }

  /** Once the row is inserted it ends `completed` exactly when the submission succeeds, and otherwise
      stays `processing` with no scores; in both cases it keeps the form's values and the file's path. */
  lemma RowLifecycle(values: PitchForm, file: PitchFile, userId: string, startupId: string, o: Oracles,
                     storage: set<string>, analyses: map<string, PitchAnalysis>)
    requires Uploads(o, StoragePath(userId, startupId, o.millis, file.name), storage)
    requires o.startup.Some? && Inserts(o, analyses)
    ensures var s := Submit(values, file, userId, startupId, o, storage, analyses);
      && o.insertion.id in s.analyses
      && (s.analyses[o.insertion.id].status == COMPLETED <==> s.completed)
      && (!s.completed ==> s.analyses[o.insertion.id] == NewRow(values, file,
            StoragePath(userId, startupId, o.millis, file.name), startupId, o.insertion.id, o.insertion.uploadedAt))
      && (s.completed ==> s.analyses[o.insertion.id] == NewRow(values, file,
            StoragePath(userId, startupId, o.millis, file.name), startupId, o.insertion.id, o.insertion.uploadedAt)
            .(status := COMPLETED, report := AnsweredReport(o.invocation).value))
      && s.analyses[o.insertion.id].title == Some(values.title)
      && s.analyses[o.insertion.id].filePath == StoragePath(userId, startupId, o.millis, file.name)
  {
  }

  /** A submission succeeds only when every step does: the upload, the startup query, the insert, the
      invocation with a 2xx non-null answer, and the update. */
  lemma CompletedOnlyWhenEveryStepSucceeds(values: PitchForm, file: PitchFile, userId: string, startupId: string,
                                           o: Oracles, storage: set<string>, analyses: map<string, PitchAnalysis>)
    ensures Submit(values, file, userId, startupId, o, storage, analyses).completed
            <==> && Uploads(o, StoragePath(userId, startupId, o.millis, file.name), storage)
                 && o.startup.Some? && Inserts(o, analyses)
                 && InvokeData(o.invocation).Some? && !InvokeData(o.invocation).value.JNull?
                 && o.updateOk
  {
  }

  /** A submission writes only its own path and its own row: a successful upload stores exactly its
      path, and the file stays there whatever the later steps do; no object or row that was there
      before is overwritten, and nothing is added but that path and the id the insert returned. */
  lemma SubmitTouchesOnlyItsOwnRow(values: PitchForm, file: PitchFile, userId: string, startupId: string,
                                   o: Oracles, storage: set<string>, analyses: map<string, PitchAnalysis>)
    ensures var s := Submit(values, file, userId, startupId, o, storage, analyses);
      && storage <= s.storage <= storage + {StoragePath(userId, startupId, o.millis, file.name)}
      && (var p := StoragePath(userId, startupId, o.millis, file.name);
          s.storage == (if Uploads(o, p, storage) then storage + {p} else storage))
      && (s.storage != storage ==> Uploads(o, StoragePath(userId, startupId, o.millis, file.name), storage))
      && (forall id :: id in analyses ==> id in s.analyses && s.analyses[id] == analyses[id])
      && (forall id :: id in s.analyses ==> id in analyses || (o.insertion.InsertedRow? && id == o.insertion.id))
  {
  }

  /** No submission breaks the table's invariant that only completed rows carry scores. */
  lemma SubmitKeepsScoresOnlyWhenCompleted(values: PitchForm, file: PitchFile, userId: string, startupId: string,
                                           o: Oracles, storage: set<string>, analyses: map<string, PitchAnalysis>)
    requires ScoresOnlyWhenCompleted(analyses)
    ensures ScoresOnlyWhenCompleted(Submit(values, file, userId, startupId, o, storage, analyses).analyses)
  {
  }

  /** When the analysis function answers with an error status (rate limit, payment, gateway error or
      any failure it converts to 500), the submission fails and the row stays `processing`. */
  lemma FunctionErrorLeavesRowProcessing(values: PitchForm, file: PitchFile, userId: string, startupId: string,
                                         o: Oracles, storage: set<string>, analyses: map<string, PitchAnalysis>,
                                         req: Request, apiKey: Option<string>, g: Gateway, parse: string -> Option<Json>)
    requires Uploads(o, StoragePath(userId, startupId, o.millis, file.name), storage)
    requires o.startup.Some? && Inserts(o, analyses)
    requires o.invocation == Delivered(Handle(req, apiKey, g, parse).response)
    requires Handle(req, apiKey, g, parse).response.status != 200
    ensures var s := Submit(values, file, userId, startupId, o, storage, analyses);
      !s.completed && o.insertion.id in s.analyses && s.analyses[o.insertion.id].status == PROCESSING
  {
    ErrorResponsesCarryOnlyMessage(req, apiKey, g, parse);
  }

  /** A reply the function cannot parse still completes the row, with the fallback's overall score of
      67 and its "Hold" recommendation. */
  lemma UnparsableReplyCompletesWithFallback(values: PitchForm, file: PitchFile, userId: string, startupId: string,
                                             o: Oracles, storage: set<string>, analyses: map<string, PitchAnalysis>,
                                             apiKey: Option<string>, text: string, parse: string -> Option<Json>)
    requires Uploads(o, StoragePath(userId, startupId, o.millis, file.name), storage)
    requires o.startup.Some? && Inserts(o, analyses) && o.updateOk
    requires apiKey.Some? && apiKey.value != ""
    requires parse(Trim(Candidate(text))).None?
    requires o.invocation == Delivered(Handle(Request("POST", BodyParsed), apiKey, Answered(200, ContentText(text)), parse).response)
    ensures var s := Submit(values, file, userId, startupId, o, storage, analyses);
      && s.completed
      && o.insertion.id in s.analyses
      && s.analyses[o.insertion.id].status == COMPLETED
      && s.analyses[o.insertion.id].report.overall == Some(67)
      && s.analyses[o.insertion.id].report.recommendation == Some("Hold")
  {
    UnparsableReplyGivesFallback(Request("POST", BodyParsed), apiKey, 200, ContentText(text), parse);
    FallbackAnswerRecorded(o.invocation);
  }

  lemma FallbackAnswerRecorded(inv: Invocation)
    requires inv == Delivered(JsonResponse(200, Fallback()))
    ensures AnsweredReport(inv).Some?
    ensures AnsweredReport(inv).value.overall == Some(67)
    ensures AnsweredReport(inv).value.recommendation == Some("Hold")
  {
    assert InvokeData(inv) == Some(Fallback());
    FallbackReport();
  }

  // ---------------------------------------------------------------------------------------------
  // The component's state
  // ---------------------------------------------------------------------------------------------

  /** The upload component: its busy flags, the dialog, the chosen file and its preview, the value of
      the file input and the form's values. */
  class PitchUploadForm {
    var uploading: bool
    var analyzing: bool
    var dialogOpen: bool
    var selectedFile: Option<PitchFile>
    var previewUrl: Option<string>
    /** The file input's value: what the browser put there when a file was picked, or "" once cleared. */
    var inputValue: string
    var form: PitchForm

    constructor ()
      ensures !uploading && !analyzing && !dialogOpen
      ensures selectedFile == None && previewUrl == None && inputValue == "" && form == EMPTY_FORM
    {
      uploading := false;
      analyzing := false;
      dialogOpen := false;
      selectedFile := None;
      previewUrl := None;
      inputValue := "";
      form := EMPTY_FORM;
    }

    /** The file input's change handler. `picked` is the first chosen file, if any; `objectUrl` is the
        URL `URL.createObjectURL` would give it. A file of the wrong type changes nothing, not even the
        input; a file too large only clears the input; an accepted file becomes the selection, with a
        preview exactly when it is a PDF. */
    method HandleFileSelect(picked: Option<PitchFile>, objectUrl: string)
      modifies this
      ensures uploading == old(uploading) && analyzing == old(analyzing)
      ensures dialogOpen == old(dialogOpen) && form == old(form)
      ensures picked.None? || CheckFile(picked.value) == WrongType ==> unchanged(this)
      ensures picked.Some? && CheckFile(picked.value) == TooLarge ==>
        selectedFile == old(selectedFile) && previewUrl == old(previewUrl) && inputValue == ""
      ensures picked.Some? && CheckFile(picked.value) == Accepted ==>
        && selectedFile == picked
        && previewUrl == (if picked.value.mimeType == PDF_TYPE then Some(objectUrl) else None)
        && inputValue == ""
    {
      if picked.None? {
        return;
      }
      var file := picked.value;
      if file.mimeType !in ALLOWED_TYPES {
        return;
      }
      if file.size > MAX_FILE_SIZE {
        inputValue := "";
        return;
      }
      selectedFile := Some(file);
      if file.mimeType == PDF_TYPE {
        previewUrl := Some(objectUrl);
      } else {
        previewUrl := None;
      }
      inputValue := "";
    }

    /** The Cancel button: closes the dialog and forgets the form, the file and the preview. */
    method Cancel()
      modifies this
      ensures !dialogOpen && form == EMPTY_FORM && selectedFile == None && previewUrl == None
      ensures uploading == old(uploading) && analyzing == old(analyzing) && inputValue == old(inputValue)
    {
      dialogOpen := false;
      form := EMPTY_FORM;
      selectedFile := None;
      previewUrl := None;
    }

    /** The submit handler, given values that passed the schema. Without a selected file or a signed-in
        user it does nothing. Otherwise it changes the backend as `Submit` says, ends with both busy
        flags down, and on success alone closes the dialog, resets the form, drops the file and the
        preview, and reports completion (`notified`, the `onUploadComplete` callback). */
    method OnSubmit(values: PitchForm, userId: Option<string>, startupId: string, o: Oracles, db: Backend)
      returns (notified: bool)
      modifies this, db
      ensures db.decisions == old(db.decisions) && inputValue == old(inputValue)
      ensures old(selectedFile).None? || userId.None? ==> unchanged(this) && unchanged(db) && !notified
      ensures old(selectedFile).Some? && userId.Some? ==>
        var s := Submit(values, old(selectedFile).value, userId.value, startupId, o, old(db.storage), old(db.analyses));
        && db.storage == s.storage && db.analyses == s.analyses
        && !uploading && !analyzing
        && notified == s.completed
        && (s.completed ==> !dialogOpen && form == EMPTY_FORM && selectedFile == None && previewUrl == None)
        && (!s.completed ==> dialogOpen == old(dialogOpen) && form == old(form)
                             && selectedFile == old(selectedFile) && previewUrl == old(previewUrl))
    {
      notified := false;
      if selectedFile.None? || userId.None? {
        return;
      }
      var file := selectedFile.value;
      uploading := true;
      var path := StoragePath(userId.value, startupId, o.millis, file.name);
      if o.uploadOk && path !in db.storage {
        db.storage := db.storage + {path};
        if o.startup.Some? && o.insertion.InsertedRow? && o.insertion.id !in db.analyses {
          var row := NewRow(values, file, path, startupId, o.insertion.id, o.insertion.uploadedAt);
          db.analyses := db.analyses[row.id := row];
          notified := AnalyzeAndRecord(row, o, db);
        }
      }
      uploading := false;
      analyzing := false;
    }

    /** The part of the submission after the insert: the busy flag moves from uploading to analyzing,
        the function is invoked and, if its answer can be recorded, the row is completed and the dialog
        closed and cleared. */
    method AnalyzeAndRecord(row: PitchAnalysis, o: Oracles, db: Backend) returns (completed: bool)
      modifies this, db
      ensures var s := Analyze(row, o, old(db.storage), old(db.analyses));
        && db.storage == s.storage && db.analyses == s.analyses && db.decisions == old(db.decisions)
        && completed == s.completed
        && !uploading && analyzing && inputValue == old(inputValue)
        && (s.completed ==> !dialogOpen && form == EMPTY_FORM && selectedFile == None && previewUrl == None)
        && (!s.completed ==> dialogOpen == old(dialogOpen) && form == old(form)
                             && selectedFile == old(selectedFile) && previewUrl == old(previewUrl))
    {
      uploading := false;
      analyzing := true;
      completed := false;
      ghost var s := Analyze(row, o, db.storage, db.analyses);
      var report := AnsweredReport(o.invocation);
      if report.Some? && o.updateOk {
        db.analyses := db.analyses[row.id := row.(status := COMPLETED, report := report.value)];
        dialogOpen := false;
        form := EMPTY_FORM;
        selectedFile := None;
        previewUrl := None;
        completed := true;
        assert s.completed && db.analyses == s.analyses;
      } else {
        assert !s.completed && s.analyses == db.analyses;
      }
    }

    /** The form's submit event: the schema runs first, and only values that pass reach `OnSubmit`.
        Returns the failed checks (none when the submission ran). */
    method SubmitForm(userId: Option<string>, startupId: string, o: Oracles, db: Backend)
      returns (errors: seq<FieldError>, notified: bool)
      modifies this, db
      ensures errors == FieldErrors(old(form))
      ensures errors != [] ==> unchanged(this) && unchanged(db) && !notified
      ensures errors == [] ==> db.decisions == old(db.decisions) && inputValue == old(inputValue)
      ensures errors == [] && (old(selectedFile).None? || userId.None?) ==> unchanged(this) && unchanged(db) && !notified
      ensures errors == [] && old(selectedFile).Some? && userId.Some? ==>
        var s := Submit(old(form), old(selectedFile).value, userId.value, startupId, o, old(db.storage), old(db.analyses));
        && db.storage == s.storage && db.analyses == s.analyses
        && !uploading && !analyzing
        && notified == s.completed
        && (s.completed ==> !dialogOpen && form == EMPTY_FORM && selectedFile == None && previewUrl == None)
        && (!s.completed ==> dialogOpen == old(dialogOpen) && form == old(form)
                             && selectedFile == old(selectedFile) && previewUrl == old(previewUrl))
    {
      errors := FieldErrors(form);
      notified := false;
      if errors == [] {
        notified := OnSubmit(form, userId, startupId, o, db);
      }
    }
  }
}
