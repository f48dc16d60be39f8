/** The classification service of api/main.py: upload validation, the guards
    of the two prediction endpoints, the per-file loop of the batch endpoint
    and its success/failure counts, and the two informational endpoints.

    Image decoding (PIL) and the network (TensorFlow) are replaced by an
    oracle, `Inference`, that for each file either fails or yields a class
    index in 0..2 with a confidence and three scores. */
module Api {
  import opened Wrappers

  /** `CLASS_NAMES`, in the order of the model's output vector. */
  const ClassNames: seq<string> := ["Early Blight", "Late Blight", "Healthy"]

  /** `SUPPORTED_FORMATS`: the extension whitelist, lower case. */
  const SupportedFormats: seq<string> := [".jpg", ".jpeg", ".png", ".bmp", ".tiff"]

  /** Python's `str()` of `SUPPORTED_FORMATS`, as interpolated into the
      error details. */
  const SupportedFormatsText := "['.jpg', '.jpeg', '.png', '.bmp', '.tiff']"

  const MaxBatchFiles := 10

  const ModelNotLoaded := "Model not loaded"
  const UnsupportedFormatDetail := "Unsupported file format. Supported formats: " + SupportedFormatsText
  const UnsupportedBatchDetail := "Unsupported file format. Supported: " + SupportedFormatsText
  const TooManyFilesDetail := "Maximum 10 files allowed per batch"
  /** The body the framework sends for an exception no handler caught. */
  const InternalServerError := "Internal Server Error"
  /** `str()` of the AttributeError raised by `None.startswith(...)`. */
  const NoContentTypeMessage := "'NoneType' object has no attribute 'startswith'"

  const StatusSuccess := "success"
  const StatusError := "error"

  /** An uploaded multipart part. Its content type is absent when the part
      carried no `Content-Type` header. */
  datatype Upload = Upload(filename: string, contentType: Option<string>, content: seq<bv8>)

  /** An HTTPException: status code and `detail`. */
  datatype HttpError = HttpError(status: int, detail: string)

  type ClassIndex = i: int | 0 <= i < 3
  type Scores = s: seq<real> | |s| == 3 witness [0.0, 0.0, 0.0]

  /** What decoding the bytes and running the model yields for one file. */
  datatype Inference =
    | DecodeFailed(reason: string)   // read_file_as_image raised its HTTPException(400)
    | ModelFailed(reason: string)    // any other exception while predicting
    | Inferred(classIndex: ClassIndex, confidence: real, scores: Scores)

  /** Outcome of `validate_image`: True, False, or an exception. */
  datatype Validation = Accepted | Rejected | Raised(message: string)

  /** The keys of an ordered JSON object, in order. */
  function Keys<V>(entries: seq<(string, V)>): (ks: seq<string>)
    ensures |ks| == |entries|
    ensures forall i :: 0 <= i < |entries| ==> ks[i] == entries[i].0
  {
    seq(|entries|, i requires 0 <= i < |entries| => entries[i].0)
  }

  // ---------------------------------------------------------------------
  // Strings: str.startswith, str.lower, os.path.splitext

  predicate StartsWith(s: string, prefix: string) {
    |prefix| <= |s| && s[..|prefix|] == prefix
  }

  function LowerChar(c: char): char {
    if 'A' <= c <= 'Z' then (c as int + 32) as char else c
  }

  /** `str.lower()` on ASCII letters. */
  function Lower(s: string): (r: string)
    ensures |r| == |s|
    ensures forall i :: 0 <= i < |s| ==> r[i] == LowerChar(s[i])
  {
    seq(|s|, i requires 0 <= i < |s| => LowerChar(s[i]))
  }

  /** `str.rfind(c)`: the last position of `c` in `s`, or -1. */
  function LastIndexOf(s: string, c: char): (i: int)
    ensures -1 <= i < |s|
    ensures i >= 0 ==> s[i] == c
    ensures forall k :: i < k < |s| ==> s[k] != c
    decreases |s|
  {
    if |s| == 0 then -1
    else if s[|s| - 1] == c then |s| - 1
    else LastIndexOf(s[..|s| - 1], c)
  }

  /** Only one position can be the last occurrence. */
  lemma LastIndexOfUnique(s: string, c: char, i: int)
    requires -1 <= i < |s|
    requires i >= 0 ==> s[i] == c
    requires forall k :: i < k < |s| ==> s[k] != c
    ensures LastIndexOf(s, c) == i
  {
  }

  /** Some character of `s[lo..hi]` is not a dot. */
  predicate HasNonDot(s: string, lo: int, hi: int)
    requires 0 <= lo && hi <= |s|
  {
    exists k :: lo <= k < hi && s[k] != '.'
  }

  /** The extension `os.path.splitext` (POSIX flavour) splits off: from the
      last dot, provided that dot lies in the last path component and that
      component has something other than dots before it; otherwise "". */
  function Extension(p: string): (e: string)
    ensures e == "" || (e[0] == '.' && |e| <= |p| && e == p[|p| - |e|..])
    ensures forall k :: 0 < k < |e| ==> e[k] != '.' && e[k] != '/'
  {
    var sepIndex := LastIndexOf(p, '/');
    var dotIndex := LastIndexOf(p, '.');
    if dotIndex > sepIndex && HasNonDot(p, sepIndex + 1, dotIndex) then p[dotIndex..] else ""
  }

  /** An independent reading of the whitelist: the name ends with one of the
      supported suffixes, and what precedes that suffix in the last path
      component is not made of dots alone. */
  ghost predicate EndsWithSupportedFormat(name: string) {
    exists i :: 0 <= i <= |name| && name[i..] in SupportedFormats
      && HasNonDot(name, LastIndexOf(name[..i], '/') + 1, i)
  }

  lemma SupportedFormatsShape(f: string)
    requires f in SupportedFormats
    ensures |f| > 1 && f[0] == '.'
    ensures forall k :: 0 < k < |f| ==> f[k] != '.' && f[k] != '/'
  {
  }

  /** A whitelisted extension is a supported suffix of the name. */
  lemma ExtensionIsSupportedSuffix(name: string)
    requires Extension(name) in SupportedFormats
    ensures EndsWithSupportedFormat(name)
  {
    var sepIndex := LastIndexOf(name, '/');
    var dotIndex := LastIndexOf(name, '.');
    assert dotIndex > sepIndex && HasNonDot(name, sepIndex + 1, dotIndex);
    LastIndexOfUnique(name[..dotIndex], '/', sepIndex);
    assert name[dotIndex..] == Extension(name);
  }

  /** A supported suffix after a proper stem is what splitext splits off. */
  lemma SupportedSuffixIsExtension(name: string, i: int)
    requires 0 <= i <= |name| && name[i..] in SupportedFormats
    requires HasNonDot(name, LastIndexOf(name[..i], '/') + 1, i)
    ensures Extension(name) == name[i..]
  {
    var f := name[i..];
    SupportedFormatsShape(f);
    assert forall k :: i <= k < |name| ==> name[k] == f[k - i];
    LastIndexOfUnique(name, '.', i);
    var s := LastIndexOf(name[..i], '/');
    assert forall k :: s < k < i ==> name[k] == name[..i][k];
    LastIndexOfUnique(name, '/', s);
  }

  /** The extension is whitelisted exactly when the name ends with a
      supported suffix that is a real extension. */
  lemma ExtensionWhitelisted(name: string)
    ensures Extension(name) in SupportedFormats <==> EndsWithSupportedFormat(name)
  {
    if Extension(name) in SupportedFormats {
      ExtensionIsSupportedSuffix(name);
    }
    if EndsWithSupportedFormat(name) {
      var i :| 0 <= i <= |name| && name[i..] in SupportedFormats
        && HasNonDot(name, LastIndexOf(name[..i], '/') + 1, i);
      SupportedSuffixIsExtension(name, i);
    }
  }

  // ---------------------------------------------------------------------
  // validate_image

  /** `validate_image`: a content type starting with "image/" and a
      lower-cased extension in the whitelist. A missing content type makes
      the call raise. */
  function ValidateImage(file: Upload): (v: Validation)
    ensures v.Raised? <==> file.contentType.None?
    ensures v.Raised? ==> v.message == NoContentTypeMessage
  {
    match file.contentType
    case None => Raised(NoContentTypeMessage)
    case Some(ct) =>
      if !StartsWith(ct, "image/") then Rejected
      else if Extension(Lower(file.filename)) in SupportedFormats then Accepted
      else Rejected
  }

  /** `validate_image` accepts exactly the uploads with an image content type
      whose lower-cased name ends with a whitelisted extension. */
  lemma ValidateImageAccepts(file: Upload)
    ensures ValidateImage(file) == Accepted <==>
      file.contentType.Some? && StartsWith(file.contentType.value, "image/")
      && EndsWithSupportedFormat(Lower(file.filename))
  {
    ExtensionWhitelisted(Lower(file.filename));
  }

  /** A content type outside "image/" is refused whatever the filename. */
  lemma NonImageTypeRejected(filename: string, contentType: string, content: seq<bv8>)
    requires !StartsWith(contentType, "image/")
    ensures ValidateImage(Upload(filename, Some(contentType), content)) == Rejected
  {
  }

  /** The extension check ignores case: an upper-case name passes. */
  lemma UpperCaseNameAccepted()
    ensures ValidateImage(Upload("LEAF.PNG", Some("image/png"), [])) == Accepted
  {
    assert Lower("LEAF.PNG") == "leaf.png";
    LastIndexOfUnique("leaf.png", '.', 4);
    LastIndexOfUnique("leaf.png", '/', -1);
    assert "leaf.png"[0] != '.';
    assert "leaf.png"[4..] == ".png";
  }

  /** ".tif" is not ".tiff": the whitelist is compared exactly. */
  lemma ShortTiffRejected()
    ensures ValidateImage(Upload("x.tif", Some("image/tiff"), [])) == Rejected
  {
    assert Lower("x.tif") == "x.tif";
    LastIndexOfUnique("x.tif", '.', 1);
    LastIndexOfUnique("x.tif", '/', -1);
    assert "x.tif"[0] != '.';
    assert "x.tif"[1..] == ".tif";
  }

  /** A name that is only a dot and an extension has no extension. */
  lemma HiddenNameRejected()
    ensures ValidateImage(Upload(".png", Some("image/png"), [])) == Rejected
  {
    assert Lower(".png") == ".png";
    LastIndexOfUnique(".png", '.', 0);
    LastIndexOfUnique(".png", '/', -1);
  }

  // ---------------------------------------------------------------------
  // predict

  /** `str()` of the exception raised while reading or predicting; the
      HTTPException of read_file_as_image renders as "<status>: <detail>". */
  function ExceptionText(inf: Inference): string
    requires !inf.Inferred?
  {
    match inf
    case DecodeFailed(reason) => "400: Invalid image format: " + reason
    case ModelFailed(reason) => reason
  }

  /** The `{CLASS_NAMES[i]: scores[i]}` dictionary, in class order. */
  function ClassProbabilities(scores: Scores): (p: seq<(string, real)>)
    ensures Keys(p) == ClassNames
    ensures forall i :: 0 <= i < 3 ==> p[i].1 == scores[i]
  {
    [(ClassNames[0], scores[0]), (ClassNames[1], scores[1]), (ClassNames[2], scores[2])]
  }

  /** The body of a successful `/predict` response (without its timestamp). */
  datatype Prediction = Prediction(
    filename: string,
    predictedClass: string,
    confidence: real,
    classProbabilities: seq<(string, real)>)

  /** `predict`: the model guard, then validation, then decoding and
      inference inside a `try` whose handler turns every exception into a
      500. */
  function Predict(modelLoaded: bool, file: Upload, inf: Inference): (r: Result<Prediction, HttpError>)
    ensures !modelLoaded ==> r == Err(HttpError(503, ModelNotLoaded))
    ensures r.Err? && r.error.status == 400 <==> modelLoaded && ValidateImage(file) == Rejected
    ensures r.Ok? <==> modelLoaded && ValidateImage(file) == Accepted && inf.Inferred?
    ensures r.Err? ==> r.error.status in {400, 500, 503}
    ensures r.Ok? ==>
      r.value.filename == file.filename && r.value.predictedClass in ClassNames
      && Keys(r.value.classProbabilities) == ClassNames
    ensures r.Ok? ==>
      inf.Inferred? && r.value.predictedClass == ClassNames[inf.classIndex]
      && r.value.confidence == inf.confidence
      && r.value.classProbabilities == ClassProbabilities(inf.scores)
    ensures r.Err? && r.error.status == 400 ==> r.error.detail == UnsupportedFormatDetail
    ensures modelLoaded && ValidateImage(file).Raised? ==> r == Err(HttpError(500, InternalServerError))
    ensures modelLoaded && ValidateImage(file) == Accepted && !inf.Inferred? ==>
      r == Err(HttpError(500, "Prediction error: " + ExceptionText(inf)))
  {
    if !modelLoaded then Err(HttpError(503, ModelNotLoaded))
    else
      match ValidateImage(file)
      case Raised(_) => Err(HttpError(500, InternalServerError))
      case Rejected => Err(HttpError(400, UnsupportedFormatDetail))
      case Accepted =>
        match inf
        case Inferred(i, c, s) => Ok(Prediction(file.filename, ClassNames[i], c, ClassProbabilities(s)))
        case DecodeFailed(_) => Err(HttpError(500, "Prediction error: " + ExceptionText(inf)))
        case ModelFailed(_) => Err(HttpError(500, "Prediction error: " + ExceptionText(inf)))
  }

  /** An undecodable image is not reported as the 400 read_file_as_image
      raises: the generic handler wraps it into a 500. */
  lemma UndecodableImageIs500(file: Upload, reason: string)
    requires ValidateImage(file) == Accepted
    ensures Predict(true, file, DecodeFailed(reason))
      == Err(HttpError(500, "Prediction error: " + ("400: Invalid image format: " + reason)))
  {
  }

  // ---------------------------------------------------------------------
  // predict_batch

  /** One element of the batch `results` list: a dictionary whose keys are
      present or absent depending on the path the file took. */
  datatype BatchEntry = BatchEntry(
    filename: string,
    status: Option<string>,
    predictedClass: Option<string>,
    confidence: Option<real>,
    classProbabilities: Option<seq<(string, real)>>,
    error: Option<string>)

  /** The body of a successful `/predict/batch` response (without its
      timestamp). */
  datatype BatchResponse = BatchResponse(
    totalFiles: nat,
    successfulPredictions: nat,
    failedPredictions: nat,
    results: seq<BatchEntry>)

  function RejectedEntry(filename: string): BatchEntry {
    BatchEntry(filename, None, None, None, None, Some(UnsupportedBatchDetail))
  }

  function FailedEntry(filename: string, message: string): BatchEntry {
    BatchEntry(filename, Some(StatusError), None, None, None, Some(message))
  }

  function SucceededEntry(filename: string, classIndex: ClassIndex, confidence: real, scores: Scores): BatchEntry {
    BatchEntry(filename, Some(StatusSuccess), Some(ClassNames[classIndex]), Some(confidence),
               Some(ClassProbabilities(scores)), None)
  }

  /** The entry the loop appends for one file. A format rejection carries
      `error` but no `status`; only a validated and inferred file succeeds. */
  function EntryFor(file: Upload, inf: Inference): (e: BatchEntry)
    ensures e.filename == file.filename
    ensures e.status.None? <==> ValidateImage(file) == Rejected
    ensures e.status == Some(StatusSuccess) <==> ValidateImage(file) == Accepted && inf.Inferred?
    ensures e.status.Some? ==> e.status.value == StatusSuccess || e.status.value == StatusError
    ensures e.status == Some(StatusSuccess) ==>
      e.predictedClass.Some? && e.predictedClass.value in ClassNames
      && e.classProbabilities.Some? && Keys(e.classProbabilities.value) == ClassNames
      && e.error.None?
    ensures e.status != Some(StatusSuccess) ==>
      e.error.Some? && e.predictedClass.None? && e.confidence.None? && e.classProbabilities.None?
    ensures e.status == Some(StatusSuccess) ==>
      inf.Inferred? && e.predictedClass == Some(ClassNames[inf.classIndex])
      && e.confidence == Some(inf.confidence)
      && e.classProbabilities == Some(ClassProbabilities(inf.scores))
    ensures ValidateImage(file) == Rejected ==> e.error == Some(UnsupportedBatchDetail)
    ensures file.contentType.None? ==> e.error == Some(NoContentTypeMessage)
    ensures ValidateImage(file) == Accepted && !inf.Inferred? ==> e.error == Some(ExceptionText(inf))
  {
    match ValidateImage(file)
    case Rejected => RejectedEntry(file.filename)
    case Raised(m) => FailedEntry(file.filename, m)
    case Accepted =>
      match inf
      case Inferred(i, c, s) => SucceededEntry(file.filename, i, c, s)
      case DecodeFailed(_) => FailedEntry(file.filename, ExceptionText(inf))
      case ModelFailed(_) => FailedEntry(file.filename, ExceptionText(inf))
  }

  /** The `results` list: one entry per file, in upload order. */
  function Entries(files: seq<Upload>, infer: Upload -> Inference): (es: seq<BatchEntry>)
    ensures |es| == |files|
    ensures forall i :: 0 <= i < |files| ==> es[i] == EntryFor(files[i], infer(files[i]))
  {
    if files == [] then []
    else [EntryFor(files[0], infer(files[0]))] + Entries(files[1..], infer)
  }

  /** `len([r for r in results if r.get('status') == status])`. */
  function CountStatus(es: seq<BatchEntry>, status: string): nat {
    if es == [] then 0
    else (if es[0].status == Some(status) then 1 else 0) + CountStatus(es[1..], status)
  }

  /** Entries that have no `status` key at all. */
  function CountUnstated(es: seq<BatchEntry>): nat {
    if es == [] then 0
    else (if es[0].status.None? then 1 else 0) + CountUnstated(es[1..])
  }

  /** Files that `validate_image` turned down. */
  function CountRejected(files: seq<Upload>): nat {
    if files == [] then 0
    else (if ValidateImage(files[0]) == Rejected then 1 else 0) + CountRejected(files[1..])
  }

  function BatchResponseFor(files: seq<Upload>, infer: Upload -> Inference): BatchResponse {
    var es := Entries(files, infer);
    BatchResponse(|files|, CountStatus(es, StatusSuccess), CountStatus(es, StatusError), es)
  }

  /** What `predict_batch` answers: the model guard first, then the size
      guard (more than ten files is refused before any file is read), then
      the aggregated response. */
  function PredictBatchOutcome(modelLoaded: bool, files: seq<Upload>, infer: Upload -> Inference): (r: Result<BatchResponse, HttpError>)
    ensures !modelLoaded ==> r == Err(HttpError(503, ModelNotLoaded))
    ensures modelLoaded && |files| > MaxBatchFiles ==> r == Err(HttpError(400, TooManyFilesDetail))
    ensures r.Ok? <==> modelLoaded && |files| <= MaxBatchFiles
    ensures r.Ok? ==> r.value == BatchResponseFor(files, infer)
    ensures r.Ok? ==> r.value.totalFiles == |r.value.results| == |files|
  {
    if !modelLoaded then Err(HttpError(503, ModelNotLoaded))
    else if |files| > MaxBatchFiles then Err(HttpError(400, TooManyFilesDetail))
    else Ok(BatchResponseFor(files, infer))
  }

  /** Appending the next element of `xs` to its prefix of length `i`. */
  lemma PrefixExtend<T>(xs: seq<T>, i: nat, x: T)
    requires i < |xs| && x == xs[i]
    ensures xs[..i] + [x] == xs[..i + 1]
  {
  }

  /** `predict_batch`: the guards, then the loop that appends exactly one
      entry per file (skipping inference with `continue` when validation
      fails), then the two counts. */
  method PredictBatch(modelLoaded: bool, files: seq<Upload>, infer: Upload -> Inference)
    returns (r: Result<BatchResponse, HttpError>)
    ensures r == PredictBatchOutcome(modelLoaded, files, infer)
  {
    if !modelLoaded {
      return Err(HttpError(503, ModelNotLoaded));
    }
    if |files| > MaxBatchFiles {
      return Err(HttpError(400, TooManyFilesDetail));
    }
    ghost var expected := Entries(files, infer);
    var results: seq<BatchEntry> := [];
    for i := 0 to |files|
      invariant results == expected[..i]
    {
      var file := files[i];
      var validation := ValidateImage(file);
      if validation.Raised? {
        // the exception is caught by the loop's `except` clause
        PrefixExtend(expected, i, FailedEntry(file.filename, validation.message));
        results := results + [FailedEntry(file.filename, validation.message)];
        continue;
      }
      if validation == Rejected {
        PrefixExtend(expected, i, RejectedEntry(file.filename));
        results := results + [RejectedEntry(file.filename)];
        continue;
      }
      var inf := infer(file);
      if inf.Inferred? {
        PrefixExtend(expected, i, SucceededEntry(file.filename, inf.classIndex, inf.confidence, inf.scores));
        results := results + [SucceededEntry(file.filename, inf.classIndex, inf.confidence, inf.scores)];
      } else {
        PrefixExtend(expected, i, FailedEntry(file.filename, ExceptionText(inf)));
        results := results + [FailedEntry(file.filename, ExceptionText(inf))];
      }
    }
    assert expected[..|files|] == expected;
    r := Ok(BatchResponse(|files|, CountStatus(results, StatusSuccess), CountStatus(results, StatusError), results));
  }

  /** Every entry is counted as a success, as a failure, or as neither
      (no `status`), and by one of these only. */
  lemma {:induction false} CountsPartition(es: seq<BatchEntry>)
    requires forall i :: 0 <= i < |es| && es[i].status.Some? ==>
      es[i].status.value == StatusSuccess || es[i].status.value == StatusError
    ensures CountStatus(es, StatusSuccess) + CountStatus(es, StatusError) + CountUnstated(es) == |es|
  {
    if es != [] {
      CountsPartition(es[1..]);
    }
  }

  /** The entries without a status are exactly the rejected files. */
  lemma {:induction false} UnstatedAreRejected(files: seq<Upload>, infer: Upload -> Inference)
    ensures CountUnstated(Entries(files, infer)) == CountRejected(files)
  {
    if files != [] {
      UnstatedAreRejected(files[1..], infer);
      assert Entries(files, infer)[1..] == Entries(files[1..], infer);
    }
  }

  lemma {:induction false} NoneRejected(files: seq<Upload>)
    ensures CountRejected(files) == 0 <==> forall i :: 0 <= i < |files| ==> ValidateImage(files[i]) != Rejected
  {
    if files != [] {
      NoneRejected(files[1..]);
      assert forall i :: 1 <= i < |files| ==> files[i] == files[1..][i - 1];
    }
  }

  /** `successful_predictions + failed_predictions` falls short of
      `total_files` by the number of format-rejected files, and reaches it
      exactly when no file was rejected by `validate_image`. */
  lemma BatchCounts(files: seq<Upload>, infer: Upload -> Inference)
    ensures var b := BatchResponseFor(files, infer);
      b.successfulPredictions + b.failedPredictions + CountRejected(files) == b.totalFiles
    ensures var b := BatchResponseFor(files, infer);
      b.successfulPredictions + b.failedPredictions <= b.totalFiles
    ensures var b := BatchResponseFor(files, infer);
      b.successfulPredictions + b.failedPredictions == b.totalFiles
      <==> forall i :: 0 <= i < |files| ==> ValidateImage(files[i]) != Rejected
  {
    var es := Entries(files, infer);
    CountsPartition(es);
    UnstatedAreRejected(files, infer);
    NoneRejected(files);
  }

  /** A single text file yields a response with one result but neither a
      success nor a failure counted. */
  lemma RejectedFileIsUncounted(infer: Upload -> Inference)
    ensures var b := BatchResponseFor([Upload("notes.txt", Some("text/plain"), [])], infer);
      b.totalFiles == 1 && |b.results| == 1 && b.successfulPredictions == 0 && b.failedPredictions == 0
  {
    var f := Upload("notes.txt", Some("text/plain"), []);
    assert "text/plain"[0] != "image/"[0];
    assert ValidateImage(f) == Rejected;
    var es := Entries([f], infer);
    assert es == [RejectedEntry("notes.txt")];
    assert es[1..] == [];
    assert CountStatus(es, StatusSuccess) == 0;
    assert CountStatus(es, StatusError) == 0;
  }

  // ---------------------------------------------------------------------
  // health and classes

  /** The body of `/health` (without its timestamp). */
  datatype HealthReport = HealthReport(
    status: string,
    modelLoaded: bool,
    tensorflowVersion: string,
    supportedClasses: seq<string>,
    supportedFormats: seq<string>)

  /** `health_check`: "healthy" exactly when the model loaded. */
  function HealthCheck(modelLoaded: bool, tensorflowVersion: string): (h: HealthReport)
    ensures h.status == "healthy" <==> modelLoaded
    ensures h.status == "healthy" || h.status == "unhealthy"
    ensures h.modelLoaded == modelLoaded && h.tensorflowVersion == tensorflowVersion
    ensures h.supportedClasses == ClassNames && h.supportedFormats == SupportedFormats
  {
    HealthReport(if modelLoaded then "healthy" else "unhealthy", modelLoaded, tensorflowVersion,
                 ClassNames, SupportedFormats)
  }

  /** The body of `/classes`. */
  datatype ClassesReport = ClassesReport(
    classes: seq<string>,
    totalClasses: nat,
    descriptions: seq<(string, string)>)

  /** `get_classes`: the class list, its length, and one description per
      class in the same order. */
  function Classes(): (c: ClassesReport)
    ensures c.classes == ClassNames && c.totalClasses == |c.classes| == 3
    ensures Keys(c.descriptions) == c.classes
  {
    ClassesReport(ClassNames, |ClassNames|, [
      ("Early Blight", "A common potato disease caused by Alternaria solani"),
      ("Late Blight", "A serious potato disease caused by Phytophthora infestans"),
      ("Healthy", "No disease detected - healthy potato plant")])
  }
}
